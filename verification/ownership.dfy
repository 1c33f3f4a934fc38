/** Who owns what while any number of sessions run (internal.go, spanemuboost.go): the
    invariants of the transition system of sessions.dfy, and the exact conditions under
    which no session ever deletes what is not its own. */
module Ownership {
  import opened Common
  import opened Options
  import opened Sessions

  // ------------------------------------------------------------------------
  // What a step can do
  // ------------------------------------------------------------------------

  /** The session created its instance and has not deleted it. */
  predicate OwesInstance(x: Session) {
    x.createdInstance && !x.instanceGone
  }

  /** The session created its database and has neither dropped it nor deleted it with
      its instance. */
  predicate Owes(x: Session) {
    x.created && !x.dropped
  }

  /** What the phase of a session says about its flags. */
  predicate PhaseOk(x: Session) {
    && (x.createdInstance ==> !x.opts.disableCreateInstance)
    && (Starting(x) ==> !x.createdInstance)
    && (!Starting(x) && !x.phase.Over? && !x.opts.disableCreateInstance ==> x.createdInstance)
    && (Starting(x) || Creating(x) ==> !x.created)
    && (x.created || x.phase.WaitCreate? || x.phase.InCreate? ==> !x.opts.disableCreateDatabase)
    && (x.created && !x.opts.disableCreateInstance ==> x.createdInstance)
    && (Deleting(x) ==> x.createdInstance)
    && (x.instanceGone ==> x.createdInstance && x.dropped)
    && (x.dropped ==> x.phase.Over?)
  }

  /** Nothing is created or deleted. */
  predicate Quiet(a: State, b: State, i: nat)
    requires i < |a.sessions| && |b.sessions| == |a.sessions|
  {
    var x, y := a.sessions[i], b.sessions[i];
    && b.instances == a.instances && b.databases == a.databases && b.taken == a.taken
    && y.createdInstance == x.createdInstance && y.created == x.created
    && y.instanceGone == x.instanceGone && y.dropped == x.dropped
  }

  predicate MakesInstance(a: State, b: State, i: nat)
    requires i < |a.sessions| && |b.sessions| == |a.sessions|
  {
    var x, y, n := a.sessions[i], b.sessions[i], a.sessions[i].Target().instance;
    && n !in a.instances && b.instances == a.instances[n := Some(i)]
    && b.databases == a.databases && b.taken == a.taken
    && !x.createdInstance && OwesInstance(y) && !x.created && !y.created
  }

  predicate MakesDatabase(a: State, b: State, i: nat)
    requires i < |a.sessions| && |b.sessions| == |a.sessions|
  {
    var x, y, d := a.sessions[i], b.sessions[i], a.sessions[i].Target();
    && d !in a.databases && d.instance in a.instances
    && b.databases == a.databases[d := Some(i)] && b.instances == a.instances && b.taken == a.taken
    && !x.created && Owes(y) && OwesInstance(y) == OwesInstance(x) && y.createdInstance == x.createdInstance
  }

  predicate DropsDatabase(a: State, b: State, i: nat)
    requires i < |a.sessions| && |b.sessions| == |a.sessions|
  {
    var x, y, d := a.sessions[i], b.sessions[i], a.sessions[i].Target();
    && Dropping(x)
    && b.databases == a.databases - {d} && b.instances == a.instances && b.taken == a.taken
    && y.created == x.created && y.dropped && OwesInstance(y) == OwesInstance(x)
        && y.createdInstance == x.createdInstance
  }

  predicate DeletesInstance(a: State, b: State, i: nat)
    requires i < |a.sessions| && |b.sessions| == |a.sessions|
  {
    var x, y, n := a.sessions[i], b.sessions[i], a.sessions[i].Target().instance;
    && Deleting(x) && OwesInstance(x) && !OwesInstance(y) && n in a.instances
    && b.instances == a.instances - {n} && b.databases == a.databases - Inhabitants(a, n)
    && b.taken == a.taken + Others(a, i, n)
    && y.created == x.created && y.dropped && y.createdInstance
  }

  predicate Shape(a: State, b: State, i: nat)
    requires i < |a.sessions| && |b.sessions| == |a.sessions|
  {
    || Quiet(a, b, i) || MakesInstance(a, b, i) || MakesDatabase(a, b, i)
    || DropsDatabase(a, b, i) || DeletesInstance(a, b, i)
  }

  /** The RPCs that a step issues. */
  predicate Issues(a: State, b: State, i: nat)
    requires i < |a.sessions|
  {
    var x, d := a.sessions[i], a.sessions[i].Target();
    && (b.drops == a.drops || (Dropping(x) && b.drops == a.drops + [DropRecord(d, OwnDatabase(a, i, d))]))
    && (b.deletes == a.deletes
        || (Deleting(x) && b.deletes == a.deletes + [DeleteRecord(d.instance, OwnInstance(a, i, d.instance))]))
  }

  ghost predicate Moves(a: State, b: State, i: nat)
    requires i < |a.sessions|
  {
    |b.sessions| == |a.sessions| && PhaseOk(b.sessions[i]) && Shape(a, b, i) && Issues(a, b, i)
  }

  lemma DropIssues(a: State, i: nat, ok: bool)
    requires i < |a.sessions| && Dropping(a.sessions[i]) && NextDrop(a, i, ok).Some?
    ensures Issues(a, NextDrop(a, i, ok).value, i)
  {
    hide CreateKey, DropKey, TargetOf, OwnDatabase;
  }

  lemma DropMoves(a: State, i: nat, ok: bool)
    requires i < |a.sessions| && PhaseOk(a.sessions[i]) && Dropping(a.sessions[i]) && NextDrop(a, i, ok).Some?
    ensures Moves(a, NextDrop(a, i, ok).value, i)
  {
    DropIssues(a, i, ok);
    hide CreateKey, DropKey, TargetOf, OwnDatabase, MakesInstance, MakesDatabase, DeletesInstance, Issues;
  }

  lemma DeleteMoves(a: State, i: nat, ok: bool)
    requires i < |a.sessions| && PhaseOk(a.sessions[i]) && Deleting(a.sessions[i]) && NextDelete(a, i, ok).Some?
    ensures Moves(a, NextDelete(a, i, ok).value, i)
  {
    hide CreateKey, DropKey, TargetOf, OwnDatabase, OwnInstance, Inhabitants, Others;
  }

  lemma StartMoves(a: State, i: nat, ok: bool)
    requires i < |a.sessions| && PhaseOk(a.sessions[i]) && Starting(a.sessions[i]) && NextStart(a, i, ok).Some?
    ensures Moves(a, NextStart(a, i, ok).value, i)
  {
    hide CreateKey, DropKey, TargetOf, DropOnClose, DropInstanceOnClose;
  }

  lemma CreateMoves(a: State, i: nat, ok: bool)
    requires i < |a.sessions| && PhaseOk(a.sessions[i]) && Creating(a.sessions[i]) && NextCreate(a, i, ok).Some?
    ensures Moves(a, NextCreate(a, i, ok).value, i)
  {
    hide CreateKey, DropKey, TargetOf, DropOnClose, DropInstanceOnClose, MakesInstance, DropsDatabase, DeletesInstance;
  }

  lemma UseMoves(a: State, i: nat, ok: bool)
    requires i < |a.sessions| && PhaseOk(a.sessions[i]) && Using(a.sessions[i]) && NextUse(a, i, ok).Some?
    ensures Moves(a, NextUse(a, i, ok).value, i)
  {
    hide CreateKey, DropKey, TargetOf;
  }

  lemma StepMoves(a: State, i: nat, ok: bool)
    requires i < |a.sessions| && PhaseOk(a.sessions[i]) && Next(a, i, ok).Some?
    ensures Moves(a, Next(a, i, ok).value, i)
  {
    hide NextDrop, NextDelete, NextStart, NextCreate, NextUse, Moves, PhaseOk;
    var x := a.sessions[i];
    if Dropping(x) {
      DropMoves(a, i, ok);
    } else if Deleting(x) {
      DeleteMoves(a, i, ok);
    } else if Starting(x) {
      StartMoves(a, i, ok);
    } else if Creating(x) {
      CreateMoves(a, i, ok);
    } else {
      UseMoves(a, i, ok);
    }
  }

  // ------------------------------------------------------------------------
  // What all runs keep
  // ------------------------------------------------------------------------

  /** The same sessions, with the same options. */
  ghost predicate SameCast(first: State, s: State) {
    && |s.sessions| == |first.sessions|
    && forall i :: 0 <= i < |s.sessions| ==> s.sessions[i].opts == first.sessions[i].opts
  }

  /** An instance exists if it was there before or some session owes it; the server knows
      which. */
  ghost predicate InstancesOk(first: State, s: State) {
    && (forall i :: 0 <= i < |s.sessions| && OwesInstance(s.sessions[i]) ==>
          OwnInstance(s, i, s.sessions[i].Target().instance))
    && (forall n :: n in s.instances && s.instances[n].Some? ==>
          var j := s.instances[n].value;
          j < |s.sessions| && OwesInstance(s.sessions[j]) && s.sessions[j].Target().instance == n)
    && (forall n :: n in first.instances <==> n in s.instances && s.instances[n] == None)
  }

  /** A database lives in an instance, and is from before or was created by the session
      that the server knows; if that session creates instances, it still owes this one. */
  ghost predicate DatabasesOk(first: State, s: State) {
    forall d :: d in s.databases ==>
      && d.instance in s.instances
      && (s.databases[d].None? ==> d in first.databases)
      && (s.databases[d].Some? ==>
            var j := s.databases[d].value;
            && j < |s.sessions| && s.sessions[j].created && s.sessions[j].Target() == d
            && (s.sessions[j].createdInstance ==> OwesInstance(s.sessions[j])))
  }

  ghost predicate BaseInv(first: State, s: State) {
    && SameCast(first, s) && InstancesOk(first, s) && DatabasesOk(first, s)
    && (forall i :: 0 <= i < |s.sessions| ==> PhaseOk(s.sessions[i]))
    && (forall k :: 0 <= k < |s.deletes| ==> s.deletes[k].own)
  }

  lemma InstancesAfterDelete(first: State, a: State, b: State, i: nat)
    requires InstancesOk(first, a) && i < |a.sessions| && OnlySession(a, b, i) && DeletesInstance(a, b, i)
    ensures InstancesOk(first, b)
  {
    hide TargetOf, Inhabitants, Others;
  }

  lemma InstancesAfterCreate(first: State, a: State, b: State, i: nat)
    requires InstancesOk(first, a) && i < |a.sessions| && OnlySession(a, b, i) && MakesInstance(a, b, i)
    ensures InstancesOk(first, b)
  {
    hide TargetOf;
  }

  lemma InstancesOtherwise(first: State, a: State, b: State, i: nat)
    requires InstancesOk(first, a) && i < |a.sessions| && OnlySession(a, b, i)
    requires b.instances == a.instances && OwesInstance(b.sessions[i]) == OwesInstance(a.sessions[i])
    ensures InstancesOk(first, b)
  {
    hide TargetOf, OwesInstance;
  }

  lemma InstancesStep(first: State, a: State, b: State, i: nat)
    requires InstancesOk(first, a) && i < |a.sessions| && OnlySession(a, b, i) && Shape(a, b, i)
    ensures InstancesOk(first, b)
  {
    hide InstancesOk, TargetOf, Inhabitants, Others;
    if DeletesInstance(a, b, i) {
      InstancesAfterDelete(first, a, b, i);
    } else if MakesInstance(a, b, i) {
      InstancesAfterCreate(first, a, b, i);
    } else {
      InstancesOtherwise(first, a, b, i);
    }
  }

  lemma DatabasesAfterDelete(first: State, a: State, b: State, i: nat)
    requires DatabasesOk(first, a) && i < |a.sessions|
    requires OnlySession(a, b, i) && DeletesInstance(a, b, i)
    ensures DatabasesOk(first, b)
  {
    hide TargetOf, OwnDatabase;
  }

  lemma DatabasesAfterCreate(first: State, a: State, b: State, i: nat)
    requires DatabasesOk(first, a) && i < |a.sessions| && PhaseOk(a.sessions[i])
    requires OnlySession(a, b, i) && MakesDatabase(a, b, i) && PhaseOk(b.sessions[i])
    ensures DatabasesOk(first, b)
  {
    hide TargetOf, OwnDatabase;
  }

  lemma DatabasesOtherwise(first: State, a: State, b: State, i: nat)
    requires DatabasesOk(first, a) && i < |a.sessions|
    requires OnlySession(a, b, i) && (Quiet(a, b, i) || MakesInstance(a, b, i) || DropsDatabase(a, b, i))
    ensures DatabasesOk(first, b)
  {
    hide TargetOf, OwnDatabase;
  }

  lemma DatabasesStep(first: State, a: State, b: State, i: nat)
    requires InstancesOk(first, a) && DatabasesOk(first, a) && i < |a.sessions| && PhaseOk(a.sessions[i])
    requires OnlySession(a, b, i) && Shape(a, b, i) && PhaseOk(b.sessions[i])
    ensures DatabasesOk(first, b)
  {
    hide InstancesOk, DatabasesOk, PhaseOk, TargetOf, MakesInstance, MakesDatabase, DropsDatabase, DeletesInstance;
    if DeletesInstance(a, b, i) {
      DatabasesAfterDelete(first, a, b, i);
    } else if MakesDatabase(a, b, i) {
      DatabasesAfterCreate(first, a, b, i);
    } else {
      DatabasesOtherwise(first, a, b, i);
    }
  }

  lemma DeletingOwns(first: State, s: State, i: nat)
    requires BaseInv(first, s) && i < |s.sessions|
    ensures Deleting(s.sessions[i]) ==> OwnInstance(s, i, s.sessions[i].Target().instance)
  {
    assert PhaseOk(s.sessions[i]);
  }

  lemma BaseStep(first: State, a: State, i: nat, ok: bool)
    requires BaseInv(first, a) && i < |a.sessions| && Next(a, i, ok).Some?
    ensures BaseInv(first, Next(a, i, ok).value)
  {
    var b := Next(a, i, ok).value;
    StepFrame(a, i, ok);
    StepMoves(a, i, ok);
    hide Next, Shape, TargetOf, InstancesOk, DatabasesOk, PermitMove;
    InstancesStep(first, a, b, i);
    DatabasesStep(first, a, b, i);
    hide PhaseOk;
    DeletingOwns(first, a, i);
  }

  lemma InitialBase(s: State)
    requires Initial(s)
    ensures BaseInv(s, s)
  {
    forall i | 0 <= i < |s.sessions| ensures PhaseOk(s.sessions[i]) && !OwesInstance(s.sessions[i]) {
      assert s.sessions[i] == Session(s.sessions[i].opts, Idle, false, false, false, false);
    }
  }

  lemma {:induction false} RunKeepsBase(run: seq<State>, k: nat)
    requires IsRun(run) && k < |run|
    ensures BaseInv(run[0], run[k])
    decreases k
  {
    hide Next, BaseInv, Initial;
    if k == 0 {
      InitialBase(run[0]);
    } else {
      RunKeepsBase(run, k - 1);
      assert Step(run[k - 1], run[k - 1 + 1]);
      var i: nat, ok :| i < |run[k - 1].sessions| && Next(run[k - 1], i, ok) == Some(run[k]);
      BaseStep(run[0], run[k - 1], i, ok);
    }
  }

  /** Without any hypothesis on the sessions: every DeleteInstance, by Close or by a
      rollback, targets an instance that the same session created and that still exists. */
  lemma InstanceOwnership(run: seq<State>, k: nat)
    requires IsRun(run) && k < |run|
    ensures forall n :: 0 <= n < |run[k].deletes| ==> run[k].deletes[n].own
    ensures forall i :: 0 <= i < |run[k].sessions| && Deleting(run[k].sessions[i]) ==>
              OwnInstance(run[k], i, run[k].sessions[i].Target().instance)
  {
    RunKeepsBase(run, k);
    forall i | 0 <= i < |run[k].sessions| && Deleting(run[k].sessions[i])
      ensures OwnInstance(run[k], i, run[k].sessions[i].Target().instance)
    {
      DeletingOwns(run[0], run[k], i);
    }
  }

  /** At every moment an instance exists if and only if it was there before or some
      session created it and has not deleted it, and only one session did. */
  lemma InstanceConservation(run: seq<State>, k: nat, n: InstanceName)
    requires IsRun(run) && k < |run|
    ensures n in run[k].instances <==>
              || n in run[0].instances
              || exists i :: 0 <= i < |run[k].sessions| && OwesInstance(run[k].sessions[i])
                  && run[k].sessions[i].Target().instance == n
    ensures var ss := run[k].sessions;
      forall i, j :: 0 <= i < j < |ss| && OwesInstance(ss[i]) && OwesInstance(ss[j]) ==>
                       ss[i].Target().instance != ss[j].Target().instance
  {
    RunKeepsBase(run, k);
    hide TargetOf, OwesInstance;
  }

  // ------------------------------------------------------------------------
  // Deleting an instance with the databases of others
  // ------------------------------------------------------------------------

  /** Session i creates an instance in which session j, which relies on it, may create a
      database. */
  predicate TakesDown(s: State, i: nat, j: nat)
    requires i < |s.sessions| && j < |s.sessions|
  {
    var x, y := s.sessions[i], s.sessions[j];
    && i != j && x.Target().instance == y.Target().instance && x.Target().instance !in s.instances
    && !x.opts.disableCreateInstance && y.opts.disableCreateInstance && !y.opts.disableCreateDatabase
  }

  ghost predicate NoneTakesDown(s: State) {
    forall i: nat, j: nat :: i < |s.sessions| && j < |s.sessions| ==> !TakesDown(s, i, j)
  }

  /** A database in an instance that session i owes, but of another owner, was created by
      a session that relies on i's instance. */
  lemma OthersRelyOnIt(first: State, a: State, i: nat, d: DatabaseName)
    requires Initial(first) && BaseInv(first, a) && NoneTakesDown(first) && i < |a.sessions|
    requires OwesInstance(a.sessions[i]) && d in Inhabitants(a, a.sessions[i].Target().instance)
    ensures OwnDatabase(a, i, d)
  {
    var n := a.sessions[i].Target().instance;
    assert PhaseOk(a.sessions[i]);
    assert OwnInstance(a, i, n) && n !in first.instances;
    assert a.databases[d].None? ==> d in first.databases && n in first.instances;
    if a.databases[d].Some? {
      var j := a.databases[d].value;
      assert PhaseOk(a.sessions[j]);
      assert a.sessions[j].createdInstance ==> OwnInstance(a, j, n);
      assert !TakesDown(first, i, j);
    }
  }

  lemma NothingTakenStep(first: State, a: State, i: nat, ok: bool)
    requires Initial(first) && BaseInv(first, a) && NoneTakesDown(first) && a.taken == {}
    requires i < |a.sessions| && Next(a, i, ok).Some?
    ensures Next(a, i, ok).value.taken == {}
  {
    var b := Next(a, i, ok).value;
    StepMoves(a, i, ok);
    if DeletesInstance(a, b, i) {
      forall d | d in Inhabitants(a, a.sessions[i].Target().instance) ensures OwnDatabase(a, i, d) {
        OthersRelyOnIt(first, a, i, d);
      }
    }
    hide Next, BaseInv, TargetOf;
  }

  lemma {:induction false} NothingTaken(run: seq<State>, k: nat)
    requires IsRun(run) && NoneTakesDown(run[0]) && k < |run|
    ensures run[k].taken == {}
    decreases k
  {
    if k == 0 {
    } else {
      NothingTaken(run, k - 1);
      RunKeepsBase(run, k - 1);
      assert Step(run[k - 1], run[k - 1 + 1]);
      var i: nat, ok :| i < |run[k - 1].sessions| && Next(run[k - 1], i, ok) == Some(run[k]);
      NothingTakenStep(run[0], run[k - 1], i, ok);
    }
  }

  lemma SameInhabitants(a: State, b: State, i: nat, n: InstanceName)
    requires a.databases == b.databases
    ensures Inhabitants(a, n) == Inhabitants(b, n) && Others(a, i, n) == Others(b, i, n)
  {
  }

  /** The open of a session that has created its instance fails, and its rollback deletes
      the instance. */
  lemma ReachDeleted(run: seq<State>, i: nat) returns (longer: seq<State>)
    requires IsRun(run) && i < |Last(run).sessions|
    requires var s, x := Last(run), Last(run).sessions[i];
      x.phase.InstanceReady? && x.createdInstance && x.Target().instance in s.instances
    ensures IsRun(longer) && longer[0] == run[0]
    ensures var s, b, n := Last(run), Last(longer), Last(run).sessions[i].Target().instance;
      && b.held == s.held && b.databases == s.databases - Inhabitants(s, n)
      && b.taken == s.taken + Others(s, i, n)
      && |b.sessions| == |s.sessions| && forall j :: 0 <= j < |s.sessions| && j != i ==> b.sessions[j] == s.sessions[j]
  {
    hide CreateKey, DropKey, DropOnClose, DropInstanceOnClose, TargetOf, Initial, Step, Inhabitants, Others;
    longer := Grow(run, i, false);
    longer := Grow(longer, i, true);
    SameInhabitants(Last(longer), Last(run), i, Last(run).sessions[i].Target().instance);
    longer := Grow(longer, i, true);
  }

  /** Session i creates its instance, session j its database in it; then i's open fails
      and its rollback takes the database away. */
  lemma TakesDownRun(s: State, i: nat, j: nat) returns (run: seq<State>)
    requires Initial(s) && i < |s.sessions| && j < |s.sessions| && TakesDown(s, i, j)
    ensures IsRun(run) && run[0] == s && s.sessions[j].Target() in Last(run).taken
    ensures Last(run).held == map[] && s.sessions[j].Target() !in Last(run).databases
    ensures |Last(run).sessions| == |s.sessions|
    ensures Last(run).sessions[j] == s.sessions[j].(phase := Bootstrapped, created := true)
  {
    SingletonRun(s);
    var x, y := s.sessions[i], s.sessions[j];
    assert x == Session(x.opts, Idle, false, false, false, false)
        && y == Session(y.opts, Idle, false, false, false, false);
    assert y.Target() !in s.databases;
    hide CreateKey, DropKey, DropOnClose, DropInstanceOnClose, TargetOf, Initial, Step;
    run := Grow([s], i, true);
    run := Grow(run, i, true);
    var n := x.Target().instance;
    assert Last(run) == s.(instances := s.instances[n := Some(i)],
                           sessions := s.sessions[i := x.(phase := InstanceReady, createdInstance := true)]);
    run := ReachInCreate(run, j);
    run := ReachBootstrapped(run, j);
    hide Next;
    var mid := Last(run);
    assert mid.sessions[i].Target().instance == n;
    assert y.Target() in Inhabitants(mid, n) && !OwnDatabase(mid, i, y.Target());
    run := ReachDeleted(run, i);
    assert y.Target() in Others(mid, i, n);
  }

  /** For every starting state: no session ever deletes an instance with a database of
      somebody else in it, in all interleavings and under all faults, exactly when no
      session creates an instance in which another one, that relies on it, may create a
      database. */
  lemma DeletionsExactly(s: State)
    requires Initial(s)
    ensures (forall run: seq<State>, k: nat :: IsRun(run) && run[0] == s && k < |run| ==> run[k].taken == {})
       <==> NoneTakesDown(s)
  {
    hide Initial, TakesDown, Step;
    if NoneTakesDown(s) {
      forall run: seq<State>, k: nat | IsRun(run) && run[0] == s && k < |run| ensures run[k].taken == {} {
        NothingTaken(run, k);
      }
    } else {
      var i: nat, j: nat :| i < |s.sessions| && j < |s.sessions| && TakesDown(s, i, j);
      var run := TakesDownRun(s, i, j);
      assert s.sessions[j].Target() in run[|run| - 1].taken;
    }
  }

  // ------------------------------------------------------------------------
  // Dropping the databases of others
  // ------------------------------------------------------------------------

  /** Teardown is forced and creation enabled: Close drops even a database that some
      other session created, or that was there before. */
  predicate TakesOver(o: Opts) {
    ForcedTeardown(o) && o.disableCreateInstance && !o.disableCreateDatabase
  }

  predicate CreatesToo(s: State, i: nat, j: nat)
    requires i < |s.sessions| && j < |s.sessions|
  {
    && i != j && s.sessions[j].Target() == s.sessions[i].Target()
    && s.sessions[j].opts.disableCreateInstance && !s.sessions[j].opts.disableCreateDatabase
  }

  /** Session i takes over, and its database is there already or may be created by
      another session. */
  ghost predicate Endangers(s: State, i: nat)
    requires i < |s.sessions|
  {
    var d := s.sessions[i].Target();
    && TakesOver(s.sessions[i].opts) && d.instance in s.instances
    && (d in s.databases || exists j: nat :: j < |s.sessions| && CreatesToo(s, i, j))
  }

  ghost predicate NoneEndangers(s: State) {
    forall i: nat :: i < |s.sessions| ==> !Endangers(s, i)
  }

  /** Nobody can lose a database to somebody else. */
  ghost predicate Safe(s: State) {
    NoneTakesDown(s) && NoneEndangers(s)
  }

  /** A session drops only what it created. */
  predicate SafeSession(x: Session) {
    && (Dropping(x) || x.phase.CheckInstance? ==> x.created)
    && (TakesOver(x.opts) && Using(x) && !x.phase.Over? ==> x.created)
  }

  /** What a session owes is there and its own; what the server has under its name it
      owes; what was there before still is. */
  ghost predicate OwnInv(first: State, s: State) {
    && (forall i :: 0 <= i < |s.sessions| ==> SafeSession(s.sessions[i]))
    && (forall i :: 0 <= i < |s.sessions| && Owes(s.sessions[i]) ==> OwnDatabase(s, i, s.sessions[i].Target()))
    && (forall d :: d in s.databases && s.databases[d].Some? ==>
          s.databases[d].value < |s.sessions| && !s.sessions[s.databases[d].value].dropped)
    && (forall d :: d in first.databases ==> d in s.databases && s.databases[d] == None)
    && (forall k :: 0 <= k < |s.drops| ==> s.drops[k].own)
  }

  /** A session that takes over never finds its database made by another. */
  predicate CreatesAlone(a: State, i: nat)
    requires i < |a.sessions|
  {
    var x := a.sessions[i];
    TakesOver(x.opts) && x.phase.InCreate? ==> x.Target() !in a.databases || x.Target().instance !in a.instances
  }

  /** If it does, its own options endanger that database, or rely on an instance that
      another session creates. */
  lemma FoundMeansDanger(first: State, a: State, i: nat)
    requires BaseInv(first, a) && i < |a.sessions| && !CreatesAlone(a, i)
    ensures Endangers(first, i) || exists k: nat :: k < |first.sessions| && TakesDown(first, k, i)
  {
    var x := a.sessions[i];
    var d := x.Target();
    assert PhaseOk(x);
    if a.instances[d.instance].Some? {
      var k := a.instances[d.instance].value;
      assert PhaseOk(a.sessions[k]) && TakesDown(first, k, i);
    } else if a.databases[d].Some? {
      var j := a.databases[d].value;
      assert PhaseOk(a.sessions[j]);
      assert a.sessions[j].createdInstance ==> OwnInstance(a, j, d.instance);
      assert CreatesToo(first, i, j);
    }
  }

  lemma SafeCreatesAlone(first: State, a: State, i: nat)
    requires BaseInv(first, a) && Safe(first) && i < |a.sessions|
    ensures CreatesAlone(a, i)
  {
    hide TakesDown, Endangers, CreatesAlone;
    if !CreatesAlone(a, i) {
      FoundMeansDanger(first, a, i);
    }
  }

  lemma SafeDrop(a: State, i: nat, ok: bool)
    requires i < |a.sessions| && SafeSession(a.sessions[i]) && Dropping(a.sessions[i]) && NextDrop(a, i, ok).Some?
    ensures i < |NextDrop(a, i, ok).value.sessions| && SafeSession(NextDrop(a, i, ok).value.sessions[i])
  {
    hide CreateKey, DropKey, TargetOf, OwnDatabase;
  }

  lemma SafeDelete(a: State, i: nat, ok: bool)
    requires i < |a.sessions| && SafeSession(a.sessions[i]) && Deleting(a.sessions[i]) && NextDelete(a, i, ok).Some?
    ensures i < |NextDelete(a, i, ok).value.sessions| && SafeSession(NextDelete(a, i, ok).value.sessions[i])
  {
    hide CreateKey, DropKey, TargetOf, OwnInstance, Inhabitants, Others;
  }

  lemma SafeStart(a: State, i: nat, ok: bool)
    requires i < |a.sessions| && SafeSession(a.sessions[i]) && PhaseOk(a.sessions[i])
    requires Starting(a.sessions[i]) && NextStart(a, i, ok).Some?
    ensures i < |NextStart(a, i, ok).value.sessions| && SafeSession(NextStart(a, i, ok).value.sessions[i])
  {
    hide CreateKey, DropKey, TargetOf;
  }

  lemma SafeCreate(a: State, i: nat, ok: bool)
    requires i < |a.sessions| && SafeSession(a.sessions[i]) && PhaseOk(a.sessions[i]) && CreatesAlone(a, i)
    requires Creating(a.sessions[i]) && NextCreate(a, i, ok).Some?
    ensures i < |NextCreate(a, i, ok).value.sessions| && SafeSession(NextCreate(a, i, ok).value.sessions[i])
  {
    hide CreateKey, DropKey, TargetOf;
  }

  lemma SafeUse(a: State, i: nat, ok: bool)
    requires i < |a.sessions| && SafeSession(a.sessions[i]) && PhaseOk(a.sessions[i])
    requires Using(a.sessions[i]) && NextUse(a, i, ok).Some?
    ensures i < |NextUse(a, i, ok).value.sessions| && SafeSession(NextUse(a, i, ok).value.sessions[i])
  {
    hide CreateKey, DropKey, TargetOf;
  }

  lemma SessionStaysSafe(first: State, a: State, i: nat, ok: bool)
    requires BaseInv(first, a) && Safe(first) && i < |a.sessions| && Next(a, i, ok).Some? && SafeSession(a.sessions[i])
    ensures i < |Next(a, i, ok).value.sessions| && SafeSession(Next(a, i, ok).value.sessions[i])
  {
    SafeCreatesAlone(first, a, i);
    assert PhaseOk(a.sessions[i]);
    hide NextDrop, NextDelete, NextStart, NextCreate, NextUse, SafeSession, CreatesAlone, PhaseOk, BaseInv, Safe;
    if Dropping(a.sessions[i]) {
      SafeDrop(a, i, ok);
    } else if Deleting(a.sessions[i]) {
      SafeDelete(a, i, ok);
    } else if Starting(a.sessions[i]) {
      SafeStart(a, i, ok);
    } else if Creating(a.sessions[i]) {
      SafeCreate(a, i, ok);
    } else {
      SafeUse(a, i, ok);
    }
  }

  lemma DroppingOwes(x: Session)
    requires SafeSession(x) && PhaseOk(x)
    ensures Dropping(x) ==> Owes(x)
  {
  }

  lemma OwnAfterDelete(first: State, a: State, b: State, i: nat)
    requires OwnInv(first, a) && DatabasesOk(first, a) && i < |a.sessions|
    requires OnlySession(a, b, i) && DeletesInstance(a, b, i) && SafeSession(b.sessions[i])
    requires b.drops == a.drops || b.drops == a.drops + [DropRecord(a.sessions[i].Target(), true)]
    requires forall d :: d in Inhabitants(a, a.sessions[i].Target().instance) ==> OwnDatabase(a, i, d)
    ensures OwnInv(first, b)
  {
    hide TargetOf, SafeSession;
  }

  lemma OwnAfterDrop(first: State, a: State, b: State, i: nat)
    requires OwnInv(first, a) && DatabasesOk(first, a) && i < |a.sessions|
    requires OnlySession(a, b, i) && DropsDatabase(a, b, i) && SafeSession(b.sessions[i])
    requires OwnDatabase(a, i, a.sessions[i].Target())
    requires b.drops == a.drops || b.drops == a.drops + [DropRecord(a.sessions[i].Target(), true)]
    ensures OwnInv(first, b)
  {
    hide TargetOf, SafeSession;
  }

  lemma OwnOtherwise(first: State, a: State, b: State, i: nat)
    requires OwnInv(first, a) && DatabasesOk(first, a) && i < |a.sessions| && PhaseOk(a.sessions[i])
    requires OnlySession(a, b, i) && SafeSession(b.sessions[i])
    requires Quiet(a, b, i) || MakesInstance(a, b, i) || MakesDatabase(a, b, i)
    requires b.drops == a.drops || b.drops == a.drops + [DropRecord(a.sessions[i].Target(), true)]
    ensures OwnInv(first, b)
  {
    hide TargetOf, SafeSession;
  }

  /** What a session does with its own resources leaves the others alone. */
  lemma OwnershipStep(first: State, a: State, b: State, i: nat)
    requires OwnInv(first, a) && DatabasesOk(first, a) && i < |a.sessions| && PhaseOk(a.sessions[i])
    requires OnlySession(a, b, i) && Moves(a, b, i) && SafeSession(b.sessions[i])
    requires DeletesInstance(a, b, i) ==>
               forall d :: d in Inhabitants(a, a.sessions[i].Target().instance) ==> OwnDatabase(a, i, d)
    ensures OwnInv(first, b)
  {
    assert SafeSession(a.sessions[i]);
    DroppingOwes(a.sessions[i]);
    hide PhaseOk, SafeSession, TargetOf, Inhabitants;
    assert Dropping(a.sessions[i]) ==> OwnDatabase(a, i, a.sessions[i].Target());
    assert DropsDatabase(a, b, i) ==> Dropping(a.sessions[i]);
    hide MakesInstance, MakesDatabase, DropsDatabase, DeletesInstance, Quiet, OwnInv;
    if DeletesInstance(a, b, i) {
      OwnAfterDelete(first, a, b, i);
    } else if DropsDatabase(a, b, i) {
      OwnAfterDrop(first, a, b, i);
    } else {
      OwnOtherwise(first, a, b, i);
    }
  }

  lemma SafeStep(first: State, a: State, i: nat, ok: bool)
    requires Initial(first) && BaseInv(first, a) && OwnInv(first, a) && Safe(first)
    requires i < |a.sessions| && Next(a, i, ok).Some?
    ensures OwnInv(first, Next(a, i, ok).value)
  {
    var b := Next(a, i, ok).value;
    StepFrame(a, i, ok);
    StepMoves(a, i, ok);
    SessionStaysSafe(first, a, i, ok);
    if DeletesInstance(a, b, i) {
      forall d | d in Inhabitants(a, a.sessions[i].Target().instance) ensures OwnDatabase(a, i, d) {
        OthersRelyOnIt(first, a, i, d);
      }
    }
    assert PhaseOk(a.sessions[i]);
    hide Next, SafeSession, TargetOf, Safe, PermitMove, DatabasesOk, InstancesOk, Shape;
    OwnershipStep(first, a, b, i);
  }

  lemma InitialOwnership(s: State)
    requires Initial(s)
    ensures OwnInv(s, s)
  {
    forall i | 0 <= i < |s.sessions| ensures SafeSession(s.sessions[i]) && !Owes(s.sessions[i]) {
      assert s.sessions[i] == Session(s.sessions[i].opts, Idle, false, false, false, false);
    }
  }

  lemma {:induction false} RunKeepsOwnership(run: seq<State>, k: nat)
    requires IsRun(run) && Safe(run[0]) && k < |run|
    ensures OwnInv(run[0], run[k])
    decreases k
  {
    hide Next, OwnInv, Initial, Safe, BaseInv;
    if k == 0 {
      InitialOwnership(run[0]);
    } else {
      RunKeepsOwnership(run, k - 1);
      RunKeepsBase(run, k - 1);
      assert Step(run[k - 1], run[k - 1 + 1]);
      var i: nat, ok :| i < |run[k - 1].sessions| && Next(run[k - 1], i, ok) == Some(run[k]);
      SafeStep(run[0], run[k - 1], i, ok);
    }
  }

  /** Every drop so far targeted a database that the same session had created and that
      still existed. */
  ghost predicate OwnDropsOnly(s: State) {
    forall n :: 0 <= n < |s.drops| ==> s.drops[n].own
  }

  /** Every DropDatabase issued, by Close or by a rollback, first try or retry, targets
      a database that the same session created and that still exists, and it exists as
      long as the RPC is in flight. */
  lemma ExclusiveOwnership(run: seq<State>, k: nat)
    requires IsRun(run) && Safe(run[0]) && k < |run|
    ensures OwnDropsOnly(run[k])
    ensures forall i :: 0 <= i < |run[k].sessions| && run[k].sessions[i].phase.InDrop? ==>
              OwnDatabase(run[k], i, run[k].sessions[i].Target())
  {
    RunKeepsOwnership(run, k);
    RunKeepsBase(run, k);
    forall i | 0 <= i < |run[k].sessions| && run[k].sessions[i].phase.InDrop? ensures Owes(run[k].sessions[i]) {
      assert SafeSession(run[k].sessions[i]) && PhaseOk(run[k].sessions[i]);
    }
  }

  /** Two sessions never both owe the drop of one database. */
  lemma NeverBothOwe(run: seq<State>, k: nat, i: nat, j: nat)
    requires IsRun(run) && Safe(run[0]) && k < |run|
    requires i < j < |run[k].sessions| && Owes(run[k].sessions[i]) && Owes(run[k].sessions[j])
    ensures run[k].sessions[i].Target() != run[k].sessions[j].Target()
  {
    RunKeepsOwnership(run, k);
  }

  /** Conservation: at every moment the server holds the databases from before, and
      besides them exactly those that some session created and has not deleted. */
  lemma Conservation(run: seq<State>, k: nat, d: DatabaseName)
    requires IsRun(run) && Safe(run[0]) && k < |run|
    ensures d in run[k].databases <==>
              || d in run[0].databases
              || exists i :: 0 <= i < |run[k].sessions| && Owes(run[k].sessions[i]) && run[k].sessions[i].Target() == d
  {
    RunKeepsOwnership(run, k);
    RunKeepsBase(run, k);
    if d in run[k].databases && run[k].databases[d].Some? {
      var j := run[k].databases[d].value;
      assert Owes(run[k].sessions[j]) && run[k].sessions[j].Target() == d;
    }
    hide TargetOf, SafeSession, PhaseOk;
  }

  // ------------------------------------------------------------------------
  // Runs that show the conditions are needed
  // ------------------------------------------------------------------------

  /** A session that takes over, on a server that has its database by now, drops a
      database that it did not create. */
  lemma TakesOverExisting(run: seq<State>, i: nat) returns (longer: seq<State>)
    requires IsRun(run) && i < |Last(run).sessions| && Last(run).held == map[]
    requires var s, x := Last(run), Last(run).sessions[i];
      && x.phase.Idle? && !x.created && TakesOver(x.opts)
      && x.Target() in s.databases && !OwnDatabase(s, i, x.Target()) && x.Target().instance in s.instances
    ensures IsRun(longer) && longer[0] == run[0] && !OwnDropsOnly(Last(longer))
  {
    var s, x := Last(run), Last(run).sessions[i];
    assert DropOnClose(x.opts, false);
    hide CreateKey, DropKey, DropOnClose, TargetOf, Initial, Step, Next;
    longer := ReachInCreate(run, i);
    longer := ReachBootstrapped(longer, i);
    longer := ReachInDrop(longer, i);
    assert Last(longer).drops[|s.drops|] == DropRecord(x.Target(), false);
  }

  lemma EndangeredRun(s: State, i: nat) returns (run: seq<State>)
    requires Initial(s) && i < |s.sessions| && Endangers(s, i)
    ensures IsRun(run) && run[0] == s && !OwnDropsOnly(Last(run))
  {
    SingletonRun(s);
    run := [s];
    var x := s.sessions[i];
    assert x == Session(x.opts, Idle, false, false, false, false);
    if x.Target() !in s.databases {
      var j: nat :| j < |s.sessions| && CreatesToo(s, i, j);
      assert s.sessions[j] == Session(s.sessions[j].opts, Idle, false, false, false, false);
      hide CreateKey, DropKey, DropOnClose, TargetOf, Initial, Step, Next;
      run := ReachInCreate(run, j);
      run := ReachBootstrapped(run, j);
    }
    run := TakesOverExisting(run, i);
  }

  /** A session whose database went with somebody else's instance still tries to drop
      it. */
  lemma StaleDropRun(s: State, i: nat, j: nat) returns (run: seq<State>)
    requires Initial(s) && i < |s.sessions| && j < |s.sessions| && TakesDown(s, i, j)
    ensures IsRun(run) && run[0] == s && !OwnDropsOnly(Last(run))
  {
    run := TakesDownRun(s, i, j);
    assert s.sessions[j] == Session(s.sessions[j].opts, Idle, false, false, false, false);
    hide CreateKey, DropKey, DropOnClose, DropInstanceOnClose, TargetOf, Initial, Step;
    var before := Last(run).drops;
    run := Grow(run, j, false);
    run := Grow(run, j, true);
    assert Last(run).drops[|before|] == DropRecord(s.sessions[j].Target(), false);
  }

  /** For every starting state: sessions only ever drop, in all interleavings and under
      all faults, what they created themselves and what still exists exactly when no
      session takes over a database that is there or that another may create, and no
      session relies on an instance that another one creates. */
  lemma OwnershipExactly(s: State)
    requires Initial(s)
    ensures (forall run: seq<State>, k: nat :: IsRun(run) && run[0] == s && k < |run| ==> OwnDropsOnly(run[k]))
       <==> Safe(s)
  {
    hide Initial, Endangers, TakesDown, OwnDropsOnly, Step;
    if Safe(s) {
      forall run: seq<State>, k: nat | IsRun(run) && run[0] == s && k < |run| ensures OwnDropsOnly(run[k]) {
        ExclusiveOwnership(run, k);
      }
    } else if !NoneTakesDown(s) {
      var i: nat, j: nat :| i < |s.sessions| && j < |s.sessions| && TakesDown(s, i, j);
      var run := StaleDropRun(s, i, j);
      assert !OwnDropsOnly(run[|run| - 1]);
    } else {
      var i: nat :| i < |s.sessions| && Endangers(s, i);
      var run := EndangeredRun(s, i);
      assert !OwnDropsOnly(run[|run| - 1]);
    }
  }
}
