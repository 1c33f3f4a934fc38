/** One session alone: the transition system of sessions.dfy ends in the states that
    Provision.OpenThenClose promises for the same code written as methods. */
module LoneSession {
  import opened Common
  import opened Options
  import opened Sessions
  import opened Ownership
  import Provision

  /** What the phase of a session says about how it got there; succeeded tells whether its
      open has succeeded. */
  predicate PathOk(x: Session, succeeded: bool) {
    var dropsInstance := DropInstanceOnClose(x.opts, x.createdInstance);
    var dropsDatabase := DropOnClose(x.opts, x.created);
    && (Starting(x) || Creating(x) || x.phase.Bootstrapped? || x.phase.DataOpen? ==> !succeeded)
    && (x.phase.CheckInstance? ==> !succeeded)
    && (x.phase.Opened? ==> succeeded)
    && (Dropping(x) ==> x.phase.closing == succeeded)
    && (x.phase.WaitDelete? || x.phase.InDelete? ==> x.phase.closing == succeeded)
    && (succeeded && !x.opts.disableCreateInstance ==> x.createdInstance)
    && (succeeded && (Deleting(x) || x.instanceGone) ==> dropsInstance)
    && (succeeded && (Dropping(x) || (x.dropped && !x.instanceGone)) ==> dropsDatabase && !dropsInstance)
    && (!succeeded && (Dropping(x) || x.phase.CheckInstance? || (x.dropped && !x.instanceGone)) ==> x.created)
  }

  lemma RetryResult(s: State, n: nat, closing: bool)
    requires |s.sessions| == 1
    ensures Retry(s, 0, n, closing).sessions
         == [s.sessions[0].(phase := if n >= MAX_ATTEMPTS then Over else Backoff(n, closing))]
  {
  }

  lemma FailResult(s: State)
    requires |s.sessions| == 1
    ensures var x := s.sessions[0];
      Fail(s, 0).sessions
      == [x.(phase := if x.createdInstance then WaitDelete(false) else if x.created then WaitDrop(1, false) else Over)]
  {
    hide TargetOf;
  }

  /** What a step of the retry loop leaves of the session: it goes on with the loop, or it
      is over and may have dropped its database. */
  predicate DropMove(x: Session, s: State)
    requires Dropping(x)
  {
    && |s.sessions| == 1
    && var y := s.sessions[0];
       && y == x.(phase := y.phase, dropped := y.dropped)
       && (y.phase.Over? || (Dropping(y) && y.phase.closing == x.phase.closing && y.dropped == x.dropped))
  }

  lemma WaitDropMove(a: State, ok: bool)
    requires |a.sessions| == 1 && a.sessions[0].phase.WaitDrop? && NextDrop(a, 0, ok).Some?
    ensures DropMove(a.sessions[0], NextDrop(a, 0, ok).value)
  {
    hide DropKey, TargetOf, OwnDatabase, Retry;
    RetryResult(a, a.sessions[0].phase.attempt, a.sessions[0].phase.closing);
  }

  lemma InDropMove(a: State, ok: bool)
    requires |a.sessions| == 1 && a.sessions[0].phase.InDrop? && NextDrop(a, 0, ok).Some?
    ensures DropMove(a.sessions[0], NextDrop(a, 0, ok).value)
  {
    hide DropKey, TargetOf, OwnDatabase, Retry, Unlock;
    var u := Unlock(a, DropKey(a.sessions[0].Target()));
    UnlockKeeps(a, DropKey(a.sessions[0].Target()));
    RetryResult(u, a.sessions[0].phase.attempt, a.sessions[0].phase.closing);
  }

  lemma BackoffMove(a: State, ok: bool)
    requires |a.sessions| == 1 && a.sessions[0].phase.Backoff? && NextDrop(a, 0, ok).Some?
    ensures DropMove(a.sessions[0], NextDrop(a, 0, ok).value)
  {
    hide DropKey, TargetOf, OwnDatabase, Retry, Unlock;
  }

  lemma DropMoveKeepsPath(x: Session, s: State, succeeded: bool)
    requires Dropping(x) && PathOk(x, succeeded) && DropMove(x, s)
    ensures PathOk(s.sessions[0], succeeded) && !s.sessions[0].phase.Opened?
    ensures Using(s.sessions[0]) ==> s.sessions[0].phase.Over?
  {
    hide DropOnClose, DropInstanceOnClose;
  }

  lemma DropPath(a: State, ok: bool, succeeded: bool)
    requires |a.sessions| == 1 && PathOk(a.sessions[0], succeeded)
    requires Dropping(a.sessions[0]) && NextDrop(a, 0, ok).Some?
    ensures var b := NextDrop(a, 0, ok).value;
      && |b.sessions| == 1 && PathOk(b.sessions[0], succeeded || b.sessions[0].phase.Opened?)
      && (Using(b.sessions[0]) ==> b.sessions[0].phase.Over?)
  {
    hide NextDrop, PathOk;
    assert DropMove(a.sessions[0], NextDrop(a, 0, ok).value) by {
      match a.sessions[0].phase
      case WaitDrop(_, _) => WaitDropMove(a, ok);
      case InDrop(_, _) => InDropMove(a, ok);
      case Backoff(_, _) => BackoffMove(a, ok);
    }
    DropMoveKeepsPath(a.sessions[0], NextDrop(a, 0, ok).value, succeeded);
  }

  lemma DeletePath(a: State, ok: bool, succeeded: bool)
    requires |a.sessions| == 1 && PhaseOk(a.sessions[0]) && PathOk(a.sessions[0], succeeded)
    requires Deleting(a.sessions[0]) && NextDelete(a, 0, ok).Some?
    ensures var b := NextDelete(a, 0, ok).value;
      && |b.sessions| == 1 && PathOk(b.sessions[0], succeeded || b.sessions[0].phase.Opened?)
      && (Using(b.sessions[0]) ==> b.sessions[0].phase.Over?)
  {
    hide CreateKey, DropKey, TargetOf, OwnInstance, Inhabitants, Others, DropOnClose, DropInstanceOnClose;
  }

  lemma StartPath(a: State, ok: bool, succeeded: bool)
    requires |a.sessions| == 1 && PhaseOk(a.sessions[0]) && PathOk(a.sessions[0], succeeded)
    requires Starting(a.sessions[0]) && NextStart(a, 0, ok).Some?
    ensures var b := NextStart(a, 0, ok).value;
      && |b.sessions| == 1 && PathOk(b.sessions[0], succeeded || b.sessions[0].phase.Opened?)
      && (Using(b.sessions[0]) ==> b.sessions[0].phase.Over?)
  {
    hide CreateKey, DropKey, TargetOf, DropOnClose, DropInstanceOnClose;
  }

  lemma CreatePath(a: State, ok: bool, succeeded: bool)
    requires |a.sessions| == 1 && PhaseOk(a.sessions[0]) && PathOk(a.sessions[0], succeeded)
    requires Creating(a.sessions[0]) && NextCreate(a, 0, ok).Some?
    ensures var b := NextCreate(a, 0, ok).value;
      |b.sessions| == 1 && PathOk(b.sessions[0], succeeded || b.sessions[0].phase.Opened?)
  {
    FailResult(a);
    FailResult(Unlock(a, CreateKey(a.sessions[0].Target())));
    hide CreateKey, DropKey, TargetOf, DropOnClose, DropInstanceOnClose, Fail;
  }

  /** A database that was to be created is there. */
  lemma CreateFinds(a: State, ok: bool)
    requires |a.sessions| == 1 && PhaseOk(a.sessions[0])
    requires Creating(a.sessions[0]) && NextCreate(a, 0, ok).Some?
    ensures var b, d := NextCreate(a, 0, ok).value, a.sessions[0].Target();
      && |b.sessions| == 1
      && var y := b.sessions[0];
         Using(y) && !y.phase.Over? && !y.opts.disableCreateDatabase ==> y.created || d in a.databases
  {
    hide CreateKey, DropKey, TargetOf;
  }

  lemma UsePath(a: State, ok: bool, succeeded: bool)
    requires |a.sessions| == 1 && PhaseOk(a.sessions[0]) && PathOk(a.sessions[0], succeeded)
    requires Using(a.sessions[0]) && NextUse(a, 0, ok).Some?
    ensures var b := NextUse(a, 0, ok).value;
      |b.sessions| == 1 && PathOk(b.sessions[0], succeeded || b.sessions[0].phase.Opened?)
  {
    hide TargetOf, DropOnClose, DropInstanceOnClose;
  }

  /** The server, given what was there before and what the session did. */
  ghost predicate ServerOk(first: State, s: State)
    requires |s.sessions| == 1
  {
    var x, d := s.sessions[0], s.sessions[0].Target();
    && (x.createdInstance ==> d.instance !in first.instances)
    && (x.created ==> d !in first.databases)
    && (forall n :: n in s.instances <==> n in first.instances || (OwesInstance(x) && n == d.instance))
    && (forall e :: e in s.databases <==> (e in first.databases && !(x.dropped && e == d)) || (Owes(x) && e == d))
  }

  /** Past its creation, a session that creates its database has created it or found it. */
  predicate CreatedOrFound(first: State, x: Session, succeeded: bool) {
    (succeeded || (Using(x) && !x.phase.Over?)) && !x.opts.disableCreateDatabase ==>
      x.created || x.Target() in first.databases
  }

  ghost predicate LoneOk(first: State, s: State, succeeded: bool) {
    && |s.sessions| == 1 && |first.sessions| == 1 && s.sessions[0].opts == first.sessions[0].opts
    && PhaseOk(s.sessions[0]) && PathOk(s.sessions[0], succeeded) && ServerOk(first, s)
    && CreatedOrFound(first, s.sessions[0], succeeded)
  }

  lemma ServerAfterDelete(first: State, a: State, b: State)
    requires Initial(first) && |a.sessions| == 1 && ServerOk(first, a)
    requires OnlySession(a, b, 0) && DeletesInstance(a, b, 0)
    ensures ServerOk(first, b)
  {
    hide TargetOf, Others;
  }

  lemma ServerStep(first: State, a: State, b: State)
    requires Initial(first) && |a.sessions| == 1 && ServerOk(first, a)
    requires PhaseOk(a.sessions[0]) && !a.sessions[0].phase.Over?
    requires OnlySession(a, b, 0) && Shape(a, b, 0)
    ensures ServerOk(first, b)
  {
    hide TargetOf, Others, Inhabitants, DeletesInstance;
    if DeletesInstance(a, b, 0) {
      ServerAfterDelete(first, a, b);
    }
  }

  lemma PathStep(a: State, ok: bool, succeeded: bool)
    requires |a.sessions| == 1 && PhaseOk(a.sessions[0]) && PathOk(a.sessions[0], succeeded) && Next(a, 0, ok).Some?
    ensures var b := Next(a, 0, ok).value;
      && |b.sessions| == 1 && PathOk(b.sessions[0], succeeded || b.sessions[0].phase.Opened?)
      && (Using(b.sessions[0]) && !b.sessions[0].phase.Over? ==> Using(a.sessions[0]) || Creating(a.sessions[0]))
  {
    hide NextDrop, NextDelete, NextStart, NextCreate, NextUse, PathOk, PhaseOk;
    var x := a.sessions[0];
    if Dropping(x) {
      DropPath(a, ok, succeeded);
    } else if Deleting(x) {
      DeletePath(a, ok, succeeded);
    } else if Starting(x) {
      StartPath(a, ok, succeeded);
    } else if Creating(x) {
      CreatePath(a, ok, succeeded);
    } else {
      UsePath(a, ok, succeeded);
    }
  }

  lemma FoundStep(first: State, a: State, ok: bool, succeeded: bool)
    requires |a.sessions| == 1 && PhaseOk(a.sessions[0]) && PathOk(a.sessions[0], succeeded) && ServerOk(first, a)
    requires CreatedOrFound(first, a.sessions[0], succeeded) && Next(a, 0, ok).Some?
    ensures var b := Next(a, 0, ok).value;
      |b.sessions| == 1 && CreatedOrFound(first, b.sessions[0], succeeded || b.sessions[0].phase.Opened?)
  {
    var x := a.sessions[0];
    StepFrame(a, 0, ok);
    StepMoves(a, 0, ok);
    PathStep(a, ok, succeeded);
    if Creating(x) {
      CreateFinds(a, ok);
    }
    hide NextDrop, NextDelete, NextStart, NextCreate, NextUse, TargetOf, PermitMove, Issues, Inhabitants, Others;
  }

  lemma LoneStep(first: State, a: State, ok: bool, succeeded: bool)
    requires Initial(first) && LoneOk(first, a, succeeded) && Next(a, 0, ok).Some?
    ensures var b := Next(a, 0, ok).value;
      |b.sessions| == 1 && LoneOk(first, b, succeeded || b.sessions[0].phase.Opened?)
  {
    StepFrame(a, 0, ok);
    StepMoves(a, 0, ok);
    OverStops(a, 0, ok);
    hide Next, PathOk, PhaseOk, Shape, ServerOk, TargetOf, PermitMove, Issues, CreatedOrFound;
    ServerStep(first, a, Next(a, 0, ok).value);
    PathStep(a, ok, succeeded);
    FoundStep(first, a, ok, succeeded);
  }

  lemma InitialLone(s: State)
    requires Initial(s) && |s.sessions| == 1
    ensures LoneOk(s, s, false)
  {
    assert s.sessions[0] == Session(s.sessions[0].opts, Idle, false, false, false, false);
  }

  /** The session's open has succeeded by state k. */
  ghost predicate Succeeded(run: seq<State>, k: nat)
    requires k < |run|
  {
    exists m :: 0 <= m <= k && |run[m].sessions| == 1 && run[m].sessions[0].phase.Opened?
  }

  lemma SucceededStep(run: seq<State>, k: nat)
    requires 0 < k < |run| && |run[k].sessions| == 1
    ensures Succeeded(run, k) <==> Succeeded(run, k - 1) || run[k].sessions[0].phase.Opened?
  {
  }

  lemma LoneLength(first: State, s: State, succeeded: bool)
    requires LoneOk(first, s, succeeded)
    ensures |s.sessions| == 1
  {
  }

  lemma InitialIdle(s: State)
    requires Initial(s) && |s.sessions| == 1
    ensures s.sessions[0].phase.Idle?
  {
  }

  lemma {:induction false} RunKeepsLone(run: seq<State>, k: nat)
    requires IsRun(run) && |run[0].sessions| == 1 && k < |run|
    ensures LoneOk(run[0], run[k], Succeeded(run, k))
    decreases k
  {
    hide Next, LoneOk, Initial;
    if k == 0 {
      InitialLone(run[0]);
      assert run[0].sessions[0].phase.Idle? by {
        InitialIdle(run[0]);
      }
    } else {
      RunKeepsLone(run, k - 1);
      assert |run[k - 1].sessions| == 1 by {
        LoneLength(run[0], run[k - 1], Succeeded(run, k - 1));
      }
      assert Step(run[k - 1], run[k - 1 + 1]);
      var i: nat, ok :| i < |run[k - 1].sessions| && Next(run[k - 1], i, ok) == Some(run[k]);
      LoneStep(run[0], run[k - 1], ok, Succeeded(run, k - 1));
      SucceededStep(run, k);
    }
  }

  /** The server holds what it held before. */
  ghost predicate SameServer(a: State, b: State) {
    a.instances.Keys == b.instances.Keys && a.databases.Keys == b.databases.Keys
  }

  /** Whatever was created has been deleted again. */
  predicate RolledBack(x: Session) {
    (x.createdInstance ==> x.instanceGone) && (x.created ==> x.dropped)
  }

  /** What Close was to delete has been deleted. */
  predicate ClosedCleanly(x: Session) {
    if DropInstanceOnClose(x.opts, x.createdInstance) then x.instanceGone
    else DropOnClose(x.opts, x.created) ==> x.dropped
  }

  /** Only the session's own names can have changed. */
  lemma SameByTarget(first: State, s: State)
    requires |s.sessions| == 1 && ServerOk(first, s) && PhaseOk(s.sessions[0])
    ensures var x, d := s.sessions[0], s.sessions[0].Target();
      SameServer(first, s) <==> !OwesInstance(x) && (d in s.databases <==> d in first.databases)
  {
    var x, d := s.sessions[0], s.sessions[0].Target();
    hide TargetOf;
    if !OwesInstance(x) && (d in s.databases <==> d in first.databases) {
      assert s.instances.Keys == first.instances.Keys;
      assert s.databases.Keys == first.databases.Keys;
    }
  }

  lemma EndOfLone(first: State, s: State, succeeded: bool)
    requires Initial(first) && LoneOk(first, s, succeeded) && s.sessions[0].phase.Over?
    ensures var x := s.sessions[0];
      && (!succeeded ==> (SameServer(first, s) <==> RolledBack(x)))
      && (succeeded && ClosedCleanly(x) ==>
            (SameServer(first, s) <==> Provision.TeardownMatchesCreation(x.opts, first.databases.Keys)))
      && first.instances.Keys <= s.instances.Keys
      && (forall e :: e in first.databases && e !in s.databases ==>
            e == x.Target() && ForcedTeardown(x.opts) && !x.opts.disableCreateDatabase)
  {
    var x, d := s.sessions[0], s.sessions[0].Target();
    SameByTarget(first, s);
    assert x.createdInstance ==> d !in first.databases;
    hide SameServer, TargetOf;
  }

  /** A session alone on the server, once it is over, under any faults: what OpenThenClose
      ensures. After a failed open the server is as before exactly if all is rolled back;
      after an open and a clean close, exactly if teardown matches creation; no instance
      from before is gone, and a database only under forced teardown with creation
      enabled. */
  lemma EndsAsOpenThenClose(run: seq<State>, k: nat)
    requires IsRun(run) && |run[0].sessions| == 1 && k < |run|
    requires |run[k].sessions| == 1 && run[k].sessions[0].phase.Over?
    ensures var first, s, x := run[0], run[k], run[k].sessions[0];
      && (!Succeeded(run, k) ==> (SameServer(first, s) <==> RolledBack(x)))
      && (Succeeded(run, k) && ClosedCleanly(x) ==>
            (SameServer(first, s) <==> Provision.TeardownMatchesCreation(x.opts, first.databases.Keys)))
      && first.instances.Keys <= s.instances.Keys
      && (forall e :: e in first.databases && e !in s.databases ==>
            e == x.Target() && ForcedTeardown(x.opts) && !x.opts.disableCreateDatabase)
  {
    RunKeepsLone(run, k);
    EndOfLone(run[0], run[k], Succeeded(run, k));
  }
}
