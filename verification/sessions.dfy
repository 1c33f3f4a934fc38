/** Any number of OpenClients sessions interleaved against one server, at the grain of
    single RPCs and lock operations (internal.go, close.go, admin_ops.go,
    spanemuboost.go).

    RPCs are atomic: an error means no effect. The server remembers who created what. */
module Sessions {
  import opened Common
  import opened Ids
  import opened Options

  datatype InstanceName = InstanceName(project: string, id: string)

  datatype DatabaseName = DatabaseName(instance: InstanceName, id: string)

  function TargetOf(o: Opts): DatabaseName {
    DatabaseName(InstanceName(o.projectID, o.instanceID), o.databaseID)
  }

  /** createDatabase locks the instance path. */
  function CreateKey(d: DatabaseName): string {
    InstancePath(d.instance.project, d.instance.id)
  }

  /** dropDatabaseWithRetry locks what it recovers from the database path. */
  function DropKey(d: DatabaseName): string {
    InstancePathFromDatabasePath(DatabasePath(d.instance.project, d.instance.id, d.id))
  }

  /** The dropDatabase flag that a successful open hands to Clients. */
  predicate DropOnClose(o: Opts, created: bool) {
    ShouldDropDatabase(o) && (created || ForcedTeardown(o))
  }

  /** The dropInstance flag, which goes before dropDatabase. */
  predicate DropInstanceOnClose(o: Opts, created: bool) {
    ShouldDropInstance(o) && (created || ForcedTeardown(o))
  }

  const MAX_ATTEMPTS: nat := 3

  /** Where a session stands. The phases that undo something say whether they belong to
      Close (otherwise to the rollback of a failed open). */
  datatype Phase =
    | Idle
    | AdminOpen
    | InstanceReady
    | WaitCreate
    | InCreate
    | Bootstrapped
    | DataOpen
    | Opened
    | WaitDrop(attempt: nat, closing: bool)
    | InDrop(attempt: nat, closing: bool)
    | Backoff(attempt: nat, closing: bool)
    | WaitDelete(closing: bool)
    | InDelete(closing: bool)
    | CheckInstance
    | Over

  /** createdInstance and created are the two fields of createdResources; instanceGone
      and dropped record that the session's own deletion took effect. */
  datatype Session = Session(opts: Opts, phase: Phase, createdInstance: bool, created: bool, instanceGone: bool,
                             dropped: bool) {
    function Target(): DatabaseName {
      TargetOf(opts)
    }
  }

  /** Who created a resource: a session, or None for what was there before. */
  type Owner = Option<nat>

  /** A DropDatabase RPC at the moment it is issued: whether its target exists and is the
      session's own. */
  datatype DropRecord = DropRecord(target: DatabaseName, own: bool)

  /** The same for a DeleteInstance RPC. */
  datatype DeleteRecord = DeleteRecord(target: InstanceName, own: bool)

  /** taken collects the databases that were deleted with their instance although the
      session that deleted it had not created them. */
  datatype State = State(
    instances: map<InstanceName, Owner>,
    databases: map<DatabaseName, Owner>,
    held: map<string, nat>,
    sessions: seq<Session>,
    drops: seq<DropRecord>,
    deletes: seq<DeleteRecord>,
    taken: set<DatabaseName>)

  ghost predicate Initial(s: State) {
    && s.held == map[] && s.drops == [] && s.deletes == [] && s.taken == {}
    && (forall n :: n in s.instances ==> s.instances[n] == None)
    && (forall d :: d in s.databases ==> s.databases[d] == None && d.instance in s.instances)
    && forall i :: 0 <= i < |s.sessions| ==>
         s.sessions[i] == Session(s.sessions[i].opts, Idle, false, false, false, false)
  }

  function Put(s: State, i: nat, x: Session): State
    requires i < |s.sessions|
  {
    s.(sessions := s.sessions[i := x])
  }

  function Move(s: State, i: nat, phase: Phase): State
    requires i < |s.sessions|
  {
    Put(s, i, s.sessions[i].(phase := phase))
  }

  /** A failed open rolls back what it recorded. */
  function Fail(s: State, i: nat): State
    requires i < |s.sessions|
  {
    var x := s.sessions[i];
    Move(s, i, if x.createdInstance then WaitDelete(false) else if x.created then WaitDrop(1, false) else Over)
  }

  function Unlock(s: State, key: string): State {
    s.(held := map k | k in s.held && k != key :: s.held[k])
  }

  /** A drop attempt that did not complete: wait and retry, or give up. */
  function Retry(s: State, i: nat, attempt: nat, closing: bool): State
    requires i < |s.sessions|
  {
    Move(s, i, if attempt >= MAX_ATTEMPTS then Over else Backoff(attempt, closing))
  }

  predicate Dropping(x: Session) {
    x.phase.WaitDrop? || x.phase.InDrop? || x.phase.Backoff?
  }

  predicate Deleting(x: Session) {
    x.phase.WaitDelete? || x.phase.InDelete? || x.phase.CheckInstance?
  }

  predicate OwnDatabase(s: State, i: nat, d: DatabaseName) {
    d in s.databases && s.databases[d] == Some(i)
  }

  predicate OwnInstance(s: State, i: nat, n: InstanceName) {
    n in s.instances && s.instances[n] == Some(i)
  }

  /** dropDatabaseWithRetry, for Close or for a rollback. */
  function NextDrop(s: State, i: nat, ok: bool): Option<State>
    requires i < |s.sessions| && Dropping(s.sessions[i])
  {
    var x := s.sessions[i];
    var d := x.Target();
    match x.phase
    case WaitDrop(n, closing) =>
      if !ok then Some(Retry(s, i, n, closing))
      else if DropKey(d) in s.held then None
      else
        Some(Move(s.(held := s.held[DropKey(d) := i],
                     drops := s.drops + [DropRecord(d, OwnDatabase(s, i, d))]), i, InDrop(n, closing)))
    case InDrop(n, closing) =>
      var u := Unlock(s, DropKey(d));
      if !ok then Some(Retry(u, i, n, closing))
      else Some(Put(u.(databases := s.databases - {d}), i, x.(phase := Over, dropped := true)))
    case Backoff(n, closing) => Some(Move(s, i, if ok then WaitDrop(n + 1, closing) else Over))
  }

  /** The databases that go with instance n. */
  function Inhabitants(s: State, n: InstanceName): set<DatabaseName> {
    set d | d in s.databases && d.instance == n
  }

  /** Those among them that session i did not create. */
  function Others(s: State, i: nat, n: InstanceName): set<DatabaseName> {
    set d | d in Inhabitants(s, n) && !OwnDatabase(s, i, d)
  }

  /** DeleteInstance takes effect: the instance goes with all its databases. */
  function Deleted(s: State, i: nat, n: InstanceName): State {
    s.(instances := s.instances - {n},
       databases := s.databases - Inhabitants(s, n),
       taken := s.taken + Others(s, i, n))
  }

  /** DeleteInstance, once; a rollback that fails at it looks whether the instance is
      still there, and then drops the database instead. */
  function NextDelete(s: State, i: nat, ok: bool): Option<State>
    requires i < |s.sessions| && Deleting(s.sessions[i])
  {
    var x := s.sessions[i];
    var n := x.Target().instance;
    match x.phase
    case WaitDelete(closing) =>
      Some(Move(s.(deletes := s.deletes + [DeleteRecord(n, OwnInstance(s, i, n))]), i, InDelete(closing)))
    case InDelete(closing) =>
      if ok && n in s.instances then
        Some(Put(Deleted(s, i, n), i, x.(phase := Over, instanceGone := true, dropped := true)))
      else Some(Move(s, i, if !closing && x.created then CheckInstance else Over))
    case CheckInstance => Some(Move(s, i, if ok && n in s.instances then WaitDrop(1, false) else Over))
  }

  predicate Starting(x: Session) {
    x.phase.Idle? || x.phase.AdminOpen?
  }

  predicate Creating(x: Session) {
    x.phase.InstanceReady? || x.phase.WaitCreate? || x.phase.InCreate?
  }

  predicate Using(x: Session) {
    x.phase.Bootstrapped? || x.phase.DataOpen? || x.phase.Opened? || x.phase.Over?
  }

  /** NewInstanceAdminClient and bootstrapInstance. */
  function NextStart(s: State, i: nat, ok: bool): Option<State>
    requires i < |s.sessions| && Starting(s.sessions[i])
  {
    var x := s.sessions[i];
    var n := x.Target().instance;
    match x.phase
    case Idle => Some(Move(s, i, if ok then AdminOpen else Over))
    case AdminOpen =>
      if x.opts.disableCreateInstance then Some(Move(s, i, InstanceReady))
      else if !ok || n in s.instances then Some(Fail(s, i))
      else Some(Put(s.(instances := s.instances[n := Some(i)]), i, x.(phase := InstanceReady, createdInstance := true)))
  }

  /** NewDatabaseAdminClient and bootstrapDatabase, where CreateDatabase runs under
      withInstanceAdminLock. */
  function NextCreate(s: State, i: nat, ok: bool): Option<State>
    requires i < |s.sessions| && Creating(s.sessions[i])
  {
    var x := s.sessions[i];
    var d := x.Target();
    match x.phase
    case InstanceReady =>
      if !ok then Some(Fail(s, i))
      else if x.opts.disableCreateDatabase then Some(Move(s, i, Bootstrapped))
      else Some(Move(s, i, WaitCreate))
    case WaitCreate =>
      if !ok then Some(Fail(s, i))
      else if CreateKey(d) in s.held then None
      else Some(Move(s.(held := s.held[CreateKey(d) := i]), i, InCreate))
    case InCreate =>
      var u := Unlock(s, CreateKey(d));
      if !ok then Some(Fail(u, i))
      else if d.instance !in s.instances then Some(Fail(u, i))
      else if d in s.databases then Some(Move(u, i, Bootstrapped))
      else Some(Put(u.(databases := s.databases[d := Some(i)]), i, x.(phase := Bootstrapped, created := true)))
  }

  /** NewClientWithConfig, the setup DML, and Close. */
  function NextUse(s: State, i: nat, ok: bool): Option<State>
    requires i < |s.sessions| && Using(s.sessions[i])
  {
    var x := s.sessions[i];
    match x.phase
    case Bootstrapped => Some(if ok then Move(s, i, DataOpen) else Fail(s, i))
    case DataOpen => Some(if ok then Move(s, i, Opened) else Fail(s, i))
    case Opened =>
      Some(Move(s, i, if DropInstanceOnClose(x.opts, x.createdInstance) then WaitDelete(true)
                      else if DropOnClose(x.opts, x.created) then WaitDrop(1, true)
                      else Over))
    case Over => None
  }

  /** One step of session i. `ok` is the outside world's choice: the call succeeds, or
      it fails, is cancelled or times out. */
  function Next(s: State, i: nat, ok: bool): Option<State>
    requires i < |s.sessions|
  {
    var x := s.sessions[i];
    if Dropping(x) then NextDrop(s, i, ok)
    else if Deleting(x) then NextDelete(s, i, ok)
    else if Starting(x) then NextStart(s, i, ok)
    else if Creating(x) then NextCreate(s, i, ok)
    else NextUse(s, i, ok)
  }

  ghost predicate Step(a: State, b: State) {
    exists i: nat, ok: bool :: i < |a.sessions| && Next(a, i, ok) == Some(b)
  }

  ghost predicate IsRun(run: seq<State>) {
    && run != [] && Initial(run[0])
    && forall k :: 0 <= k < |run| - 1 ==> Step(run[k], run[k + 1])
  }

  // ------------------------------------------------------------------------
  // The lock
  // ------------------------------------------------------------------------

  predicate InFlight(x: Session) {
    x.phase.InCreate? || x.phase.InDrop?
  }

  function KeyOf(x: Session): string {
    if x.phase.InCreate? then CreateKey(x.Target()) else DropKey(x.Target())
  }

  /** Every permit taken is held by exactly the session whose RPC is in flight. */
  ghost predicate LockInv(s: State) {
    && (forall i :: 0 <= i < |s.sessions| && InFlight(s.sessions[i]) ==>
          KeyOf(s.sessions[i]) in s.held && s.held[KeyOf(s.sessions[i])] == i)
    && (forall key :: key in s.held ==>
          s.held[key] < |s.sessions| && InFlight(s.sessions[s.held[key]]) && KeyOf(s.sessions[s.held[key]]) == key)
  }

  /** Only session i changed, and not its options. */
  predicate OnlySession(a: State, b: State, i: nat)
    requires i < |a.sessions|
  {
    && |b.sessions| == |a.sessions| && b.sessions[i].opts == a.sessions[i].opts
    && forall j :: 0 <= j < |a.sessions| && j != i ==> b.sessions[j] == a.sessions[j]
  }

  /** The permits are left alone, or a free one is taken for an RPC, or the one of the
      RPC that ends is given back. */
  predicate PermitMove(a: State, b: State, i: nat)
    requires i < |a.sessions| && |b.sessions| == |a.sessions|
  {
    var x, y := a.sessions[i], b.sessions[i];
    || (b.held == a.held && !InFlight(x) && !InFlight(y))
    || (!InFlight(x) && InFlight(y) && KeyOf(y) !in a.held && b.held == a.held[KeyOf(y) := i])
    || (InFlight(x) && !InFlight(y) && b.held == Unlock(a, KeyOf(x)).held)
  }

  lemma DropFrame(a: State, i: nat, ok: bool)
    requires i < |a.sessions| && Dropping(a.sessions[i]) && NextDrop(a, i, ok).Some?
    ensures OnlySession(a, NextDrop(a, i, ok).value, i) && PermitMove(a, NextDrop(a, i, ok).value, i)
  {
    hide CreateKey, DropKey, TargetOf, OwnDatabase;
  }

  lemma DeleteFrame(a: State, i: nat, ok: bool)
    requires i < |a.sessions| && Deleting(a.sessions[i]) && NextDelete(a, i, ok).Some?
    ensures OnlySession(a, NextDelete(a, i, ok).value, i) && PermitMove(a, NextDelete(a, i, ok).value, i)
  {
    hide CreateKey, DropKey, TargetOf, OwnInstance, Inhabitants, Others;
  }

  lemma FailFrame(s: State, i: nat)
    requires i < |s.sessions|
    ensures var f := Fail(s, i);
      && f.held == s.held && OnlySession(s, f, i) && |f.sessions| == |s.sessions| && !InFlight(f.sessions[i])
  {
    hide TargetOf;
  }

  lemma StartFrame(a: State, i: nat, ok: bool)
    requires i < |a.sessions| && Starting(a.sessions[i]) && NextStart(a, i, ok).Some?
    ensures OnlySession(a, NextStart(a, i, ok).value, i) && PermitMove(a, NextStart(a, i, ok).value, i)
  {
    hide CreateKey, DropKey, TargetOf, Fail;
    FailFrame(a, i);
  }

  lemma CreateFrame(a: State, i: nat, ok: bool)
    requires i < |a.sessions| && Creating(a.sessions[i]) && NextCreate(a, i, ok).Some?
    ensures OnlySession(a, NextCreate(a, i, ok).value, i)
  {
    hide CreateKey, DropKey, TargetOf, Fail;
    FailFrame(a, i);
    FailFrame(Unlock(a, CreateKey(a.sessions[i].Target())), i);
  }

  lemma CreatePermit(a: State, i: nat, ok: bool)
    requires i < |a.sessions| && Creating(a.sessions[i]) && NextCreate(a, i, ok).Some?
    requires |NextCreate(a, i, ok).value.sessions| == |a.sessions|
    ensures PermitMove(a, NextCreate(a, i, ok).value, i)
  {
    hide CreateKey, DropKey, TargetOf, Fail, OnlySession;
    FailFrame(a, i);
    FailFrame(Unlock(a, CreateKey(a.sessions[i].Target())), i);
  }

  lemma UseFrame(a: State, i: nat, ok: bool)
    requires i < |a.sessions| && Using(a.sessions[i]) && NextUse(a, i, ok).Some?
    ensures OnlySession(a, NextUse(a, i, ok).value, i) && PermitMove(a, NextUse(a, i, ok).value, i)
  {
    hide CreateKey, DropKey, DropOnClose, DropInstanceOnClose, TargetOf;
  }

  lemma StepFrame(a: State, i: nat, ok: bool)
    requires i < |a.sessions| && Next(a, i, ok).Some?
    ensures OnlySession(a, Next(a, i, ok).value, i) && PermitMove(a, Next(a, i, ok).value, i)
  {
    hide NextDrop, NextDelete, NextStart, NextCreate, NextUse, PermitMove;
    var x := a.sessions[i];
    if Dropping(x) {
      DropFrame(a, i, ok);
    } else if Deleting(x) {
      DeleteFrame(a, i, ok);
    } else if Starting(x) {
      StartFrame(a, i, ok);
    } else if Creating(x) {
      CreateFrame(a, i, ok);
      CreatePermit(a, i, ok);
    } else {
      UseFrame(a, i, ok);
    }
  }

  lemma LockMove(a: State, b: State, i: nat)
    requires LockInv(a) && i < |a.sessions| && OnlySession(a, b, i) && PermitMove(a, b, i)
    ensures LockInv(b)
  {
    hide InFlight, KeyOf;
  }

  lemma LockStep(a: State, i: nat, ok: bool)
    requires LockInv(a) && i < |a.sessions| && Next(a, i, ok).Some?
    ensures LockInv(Next(a, i, ok).value)
  {
    var b := Next(a, i, ok).value;
    StepFrame(a, i, ok);
    hide Next, OnlySession, PermitMove, LockInv;
    LockMove(a, b, i);
  }

  lemma {:induction false} RunKeepsLock(run: seq<State>, k: nat)
    requires IsRun(run) && k < |run|
    ensures LockInv(run[k])
    decreases k
  {
    if k == 0 {
    } else {
      RunKeepsLock(run, k - 1);
      hide Next, LockInv;
      assert Step(run[k - 1], run[k - 1 + 1]);
      var i: nat, ok :| i < |run[k - 1].sessions| && Next(run[k - 1], i, ok) == Some(run[k]);
      LockStep(run[k - 1], i, ok);
    }
  }

  // ------------------------------------------------------------------------
  // Progress
  // ------------------------------------------------------------------------

  lemma OverStops(s: State, i: nat, ok: bool)
    requires i < |s.sessions|
    ensures s.sessions[i].phase.Over? ==> Next(s, i, ok).None?
  {
  }

  /** A session is held up only by a key that somebody holds. */
  lemma HeldUp(s: State, i: nat)
    requires i < |s.sessions| && !s.sessions[i].phase.Over? && Next(s, i, true).None?
    ensures s.sessions[i].phase.WaitCreate? ==> CreateKey(s.sessions[i].Target()) in s.held
    ensures s.sessions[i].phase.WaitDrop? ==> DropKey(s.sessions[i].Target()) in s.held
    ensures s.sessions[i].phase.WaitCreate? || s.sessions[i].phase.WaitDrop?
  {
    hide CreateKey, DropKey, TargetOf, Fail, Retry, Unlock, OwnDatabase, OwnInstance;
  }

  /** An RPC in flight can end. */
  lemma InFlightSteps(s: State, i: nat)
    requires i < |s.sessions| && InFlight(s.sessions[i])
    ensures Next(s, i, true).Some?
  {
    hide CreateKey, DropKey, TargetOf, Fail, Retry, Unlock;
  }

  /** No reachable state is stuck: while some session is not over, some session has a step
      in which its call succeeds. */
  lemma Progress(run: seq<State>, k: nat, i: nat)
    requires IsRun(run) && k < |run| && i < |run[k].sessions| && !run[k].sessions[i].phase.Over?
    ensures exists j: nat :: j < |run[k].sessions| && Next(run[k], j, true).Some?
  {
    RunKeepsLock(run, k);
    var s := run[k];
    hide Next, CreateKey, DropKey, TargetOf, IsRun;
    if Next(s, i, true).None? {
      HeldUp(s, i);
      var x := s.sessions[i];
      var key := if x.phase.WaitCreate? then CreateKey(x.Target()) else DropKey(x.Target());
      InFlightSteps(s, s.held[key]);
    }
  }

  function Retries(attempt: nat): nat {
    if attempt < MAX_ATTEMPTS then 3 * (MAX_ATTEMPTS - attempt) else 0
  }

  /** Steps that a session can still take. */
  function Rank(phase: Phase): nat {
    match phase
    case Idle => 20
    case AdminOpen => 19
    case InstanceReady => 18
    case WaitCreate => 17
    case InCreate => 16
    case Bootstrapped => 15
    case DataOpen => 14
    case Opened => 13
    case WaitDelete(_) => 12
    case InDelete(_) => 11
    case CheckInstance => 10
    case WaitDrop(n, _) => Retries(n) + 3
    case InDrop(n, _) => Retries(n) + 2
    case Backoff(n, _) => if n < MAX_ATTEMPTS then Retries(n) + 1 else 4
    case Over => 0
  }

  function TotalRank(sessions: seq<Session>): nat {
    if sessions == [] then 0 else Rank(sessions[0].phase) + TotalRank(sessions[1..])
  }

  lemma {:induction false} TotalRankUpdate(sessions: seq<Session>, i: nat, x: Session)
    requires i < |sessions|
    ensures TotalRank(sessions[i := x]) + Rank(sessions[i].phase) == TotalRank(sessions) + Rank(x.phase)
    decreases |sessions|
  {
    if i == 0 {
      assert sessions[0 := x][1..] == sessions[1..];
    } else {
      TotalRankUpdate(sessions[1..], i - 1, x);
      assert sessions[i := x][1..] == sessions[1..][i - 1 := x];
    }
  }

  lemma {:induction false} TotalRankBound(sessions: seq<Session>)
    ensures TotalRank(sessions) <= 20 * |sessions|
    decreases |sessions|
  {
    if sessions == [] {
    } else {
      TotalRankBound(sessions[1..]);
    }
  }

  predicate Lower(a: State, b: State, i: nat)
    requires i < |a.sessions|
  {
    i < |b.sessions| && Rank(b.sessions[i].phase) < Rank(a.sessions[i].phase)
  }

  lemma DropLowersRank(a: State, i: nat, ok: bool)
    requires i < |a.sessions| && Dropping(a.sessions[i]) && NextDrop(a, i, ok).Some?
    ensures Lower(a, NextDrop(a, i, ok).value, i)
  {
    hide CreateKey, DropKey, TargetOf, OwnDatabase;
  }

  lemma DeleteLowersRank(a: State, i: nat, ok: bool)
    requires i < |a.sessions| && Deleting(a.sessions[i]) && NextDelete(a, i, ok).Some?
    ensures Lower(a, NextDelete(a, i, ok).value, i)
  {
    hide TargetOf, OwnInstance, Inhabitants, Others;
  }

  lemma FailRank(s: State, i: nat)
    requires i < |s.sessions|
    ensures i < |Fail(s, i).sessions| && Rank(Fail(s, i).sessions[i].phase) <= 12
  {
    hide TargetOf;
  }

  lemma MovePhase(s: State, i: nat, phase: Phase)
    requires i < |s.sessions|
    ensures i < |Move(s, i, phase).sessions| && Move(s, i, phase).sessions[i].phase == phase
  {
  }

  lemma StartLowersRank(a: State, i: nat, ok: bool)
    requires i < |a.sessions| && Starting(a.sessions[i]) && NextStart(a, i, ok).Some?
    ensures Lower(a, NextStart(a, i, ok).value, i)
  {
    hide TargetOf, Fail, Retries;
    FailRank(a, i);
  }

  lemma UnlockKeeps(s: State, key: string)
    ensures Unlock(s, key) == s.(held := Unlock(s, key).held)
  {
  }

  lemma InCreateLowersRank(a: State, i: nat, ok: bool)
    requires i < |a.sessions| && a.sessions[i].phase.InCreate? && NextCreate(a, i, ok).Some?
    ensures Lower(a, NextCreate(a, i, ok).value, i)
  {
    hide CreateKey, TargetOf, Fail, Unlock, Retries;
    var u := Unlock(a, CreateKey(a.sessions[i].Target()));
    UnlockKeeps(a, CreateKey(a.sessions[i].Target()));
    FailRank(u, i);
  }

  lemma BeforeCreateLowersRank(a: State, i: nat, ok: bool)
    requires i < |a.sessions| && Creating(a.sessions[i]) && !a.sessions[i].phase.InCreate?
    requires NextCreate(a, i, ok).Some?
    ensures Lower(a, NextCreate(a, i, ok).value, i)
  {
    hide CreateKey, TargetOf, Fail, Move, Unlock, Retries;
    FailRank(a, i);
    match a.sessions[i].phase
    case InstanceReady =>
      MovePhase(a, i, Bootstrapped);
      MovePhase(a, i, WaitCreate);
    case WaitCreate =>
      MovePhase(a.(held := a.held[CreateKey(a.sessions[i].Target()) := i]), i, InCreate);
  }

  lemma CreateLowersRank(a: State, i: nat, ok: bool)
    requires i < |a.sessions| && Creating(a.sessions[i]) && NextCreate(a, i, ok).Some?
    ensures Lower(a, NextCreate(a, i, ok).value, i)
  {
    hide NextCreate, Lower;
    if a.sessions[i].phase.InCreate? {
      InCreateLowersRank(a, i, ok);
    } else {
      BeforeCreateLowersRank(a, i, ok);
    }
  }

  lemma UseLowersRank(a: State, i: nat, ok: bool)
    requires i < |a.sessions| && Using(a.sessions[i]) && NextUse(a, i, ok).Some?
    ensures Lower(a, NextUse(a, i, ok).value, i)
  {
    hide DropOnClose, DropInstanceOnClose, TargetOf;
  }

  lemma StepLowersRank(a: State, i: nat, ok: bool)
    requires i < |a.sessions| && Next(a, i, ok).Some?
    ensures Lower(a, Next(a, i, ok).value, i)
  {
    hide NextDrop, NextDelete, NextStart, NextCreate, NextUse, Lower;
    var x := a.sessions[i];
    if Dropping(x) {
      DropLowersRank(a, i, ok);
    } else if Deleting(x) {
      DeleteLowersRank(a, i, ok);
    } else if Starting(x) {
      StartLowersRank(a, i, ok);
    } else if Creating(x) {
      CreateLowersRank(a, i, ok);
    } else {
      UseLowersRank(a, i, ok);
    }
  }

  /** Every run is short: n sessions take at most 20n steps, under any faults and in any
      schedule. With Progress, every maximal run ends with all sessions over. */
  lemma {:induction false} RunLength(run: seq<State>, k: nat)
    requires IsRun(run) && k < |run|
    ensures |run[k].sessions| == |run[0].sessions|
    ensures k + TotalRank(run[k].sessions) <= 20 * |run[0].sessions|
    decreases k
  {
    if k == 0 {
      TotalRankBound(run[0].sessions);
    } else {
      RunLength(run, k - 1);
      var a := run[k - 1];
      assert Step(a, run[k - 1 + 1]);
      hide Rank, PermitMove;
      var i: nat, ok :| i < |a.sessions| && Next(a, i, ok) == Some(run[k]);
      StepFrame(a, i, ok);
      StepLowersRank(a, i, ok);
      hide Next;
      assert run[k].sessions == a.sessions[i := run[k].sessions[i]];
      TotalRankUpdate(a.sessions, i, run[k].sessions[i]);
    }
  }

  // ------------------------------------------------------------------------
  // No overlap on an instance
  // ------------------------------------------------------------------------

  /** Create and drop agree on the key exactly when neither ID is "databases". */
  lemma KeysAgree(d: DatabaseName)
    requires NoSlash(d.instance.project) && NoSlash(d.instance.id)
    ensures CreateKey(d) == DropKey(d) <==> d.instance.project != "databases" && d.instance.id != "databases"
  {
    PathInverse(d.instance.project, d.instance.id, d.id);
  }

  /** Sessions a and b both have an admin RPC in flight on one instance. */
  ghost predicate Overlap(s: State, a: nat, b: nat, instance: InstanceName) {
    && a < |s.sessions| && b < |s.sessions| && a != b
    && InFlight(s.sessions[a]) && InFlight(s.sessions[b])
    && s.sessions[a].Target().instance == instance && s.sessions[b].Target().instance == instance
  }

  lemma KeysAgreeOn(d: DatabaseName, instance: InstanceName)
    requires NoSlash(instance.project) && NoSlash(instance.id)
    requires instance.project != "databases" && instance.id != "databases"
    ensures d.instance == instance ==>
      CreateKey(d) == InstancePath(instance.project, instance.id)
          && DropKey(d) == InstancePath(instance.project, instance.id)
  {
    if d.instance == instance {
      KeysAgree(d);
    }
  }

  /** Create and drop on one instance never overlap, in any interleaving with any
      cancelled waits, if neither of its IDs is "databases". */
  lemma NoOverlap(run: seq<State>, k: nat, a: nat, b: nat, instance: InstanceName)
    requires IsRun(run) && k < |run|
    requires NoSlash(instance.project) && NoSlash(instance.id)
    requires instance.project != "databases" && instance.id != "databases"
    ensures !Overlap(run[k], a, b, instance)
  {
    RunKeepsLock(run, k);
    var s := run[k];
    if a < |s.sessions| && b < |s.sessions| {
      KeysAgreeOn(s.sessions[a].Target(), instance);
      KeysAgreeOn(s.sessions[b].Target(), instance);
    }
    hide CreateKey, DropKey, TargetOf;
  }

  /** Two drops, or two creates, on one instance always share their key. */
  lemma SameKindSameKey(d: DatabaseName, e: DatabaseName)
    requires d.instance == e.instance && NoSlash(d.instance.project) && NoSlash(d.instance.id)
    ensures CreateKey(d) == CreateKey(e) && DropKey(d) == DropKey(e)
  {
    DropKeyOfInstance(d.instance.project, d.instance.id, d.id, e.id);
  }

  /** A create and a drop are in flight on one instance. */
  ghost predicate CreateMeetsDrop(s: State, a: nat, b: nat, instance: InstanceName) {
    Overlap(s, a, b, instance) && s.sessions[a].phase.InCreate? && s.sessions[b].phase.InDrop?
  }

  /** Whenever two admin RPCs overlap on one instance, one is a create and the other a
      drop. */
  lemma OverlapsAreMixed(run: seq<State>, k: nat, a: nat, b: nat, instance: InstanceName)
    requires IsRun(run) && k < |run| && Overlap(run[k], a, b, instance)
    requires NoSlash(instance.project) && NoSlash(instance.id)
    ensures CreateMeetsDrop(run[k], a, b, instance) || CreateMeetsDrop(run[k], b, a, instance)
  {
    RunKeepsLock(run, k);
    SameKindSameKey(run[k].sessions[a].Target(), run[k].sessions[b].Target());
    hide CreateKey, DropKey, TargetOf;
  }

  // ------------------------------------------------------------------------
  // Building runs
  // ------------------------------------------------------------------------

  function Last(run: seq<State>): State
    requires run != []
  {
    run[|run| - 1]
  }

  lemma Grow(run: seq<State>, i: nat, ok: bool) returns (longer: seq<State>)
    requires IsRun(run) && i < |Last(run).sessions| && Next(Last(run), i, ok).Some?
    ensures IsRun(longer) && longer[0] == run[0] && Last(longer) == Next(Last(run), i, ok).value
  {
    longer := run + [Next(Last(run), i, ok).value];
    hide Next;
    forall k | 0 <= k < |longer| - 1 ensures Step(longer[k], longer[k + 1]) {
      if k < |run| - 1 {
        assert Step(run[k], run[k + 1]);
      }
    }
  }

  lemma SingletonRun(s: State)
    requires Initial(s)
    ensures IsRun([s])
  {
  }

  /** A fresh session that creates a database in an existing instance gets its
      CreateDatabase in flight. */
  lemma ReachInCreate(run: seq<State>, i: nat) returns (longer: seq<State>)
    requires IsRun(run) && i < |Last(run).sessions|
    requires var x := Last(run).sessions[i];
      && x.phase.Idle? && x.opts.disableCreateInstance && !x.opts.disableCreateDatabase
      && CreateKey(x.Target()) !in Last(run).held
    ensures IsRun(longer) && longer[0] == run[0]
    ensures var s, x := Last(run), Last(run).sessions[i];
      Last(longer) == s.(sessions := s.sessions[i := x.(phase := InCreate)], held := s.held[CreateKey(x.Target()) := i])
  {
    hide CreateKey, DropKey, DropOnClose, TargetOf, Initial, Step;
    longer := Grow(run, i, true);
    longer := Grow(longer, i, true);
    longer := Grow(longer, i, true);
    longer := Grow(longer, i, true);
    var s := Last(run);
    assert Last(longer).sessions == s.sessions[i := s.sessions[i].(phase := InCreate)];
  }

  /** Its CreateDatabase succeeds, or finds the database there. */
  lemma ReachBootstrapped(run: seq<State>, i: nat) returns (longer: seq<State>)
    requires IsRun(run) && i < |Last(run).sessions|
    requires var s, x := Last(run), Last(run).sessions[i];
      && x.phase.InCreate? && x.Target().instance in s.instances && s.held.Keys == {CreateKey(x.Target())}
      && !x.created
    ensures IsRun(longer) && longer[0] == run[0]
    ensures var s, x, d := Last(run), Last(run).sessions[i], Last(run).sessions[i].Target();
      var created := d !in s.databases;
      Last(longer) == s.(sessions := s.sessions[i := x.(phase := Bootstrapped, created := created)], held := map[],
                         databases := if created then s.databases[d := Some(i)] else s.databases)
  {
    hide CreateKey, DropKey, DropOnClose, TargetOf, Initial, Step;
    longer := Grow(run, i, true);
    assert Last(longer).held == map[];
  }

  /** It opens. */
  lemma ReachOpened(run: seq<State>, i: nat) returns (longer: seq<State>)
    requires IsRun(run) && i < |Last(run).sessions| && Last(run).sessions[i].phase.Bootstrapped?
    ensures IsRun(longer) && longer[0] == run[0]
    ensures var s, x := Last(run), Last(run).sessions[i];
      Last(longer) == s.(sessions := s.sessions[i := x.(phase := Opened)])
  {
    hide CreateKey, DropKey, DropOnClose, TargetOf, Initial, Step;
    longer := Grow(run, i, true);
    longer := Grow(longer, i, true);
    assert Last(longer).sessions == Last(run).sessions[i := Last(run).sessions[i].(phase := Opened)];
  }

  /** It is closed, and gets its DropDatabase in flight, if its options say so. */
  lemma ReachInDrop(run: seq<State>, i: nat) returns (longer: seq<State>)
    requires IsRun(run) && i < |Last(run).sessions|
    requires var s, x := Last(run), Last(run).sessions[i];
      && x.phase.Bootstrapped? && s.held == map[]
      && x.opts.disableCreateInstance && DropOnClose(x.opts, x.created)
    ensures IsRun(longer) && longer[0] == run[0]
    ensures var s, x, d := Last(run), Last(run).sessions[i], Last(run).sessions[i].Target();
      && Last(longer).sessions == s.sessions[i := x.(phase := InDrop(1, true))]
      && Last(longer).instances == s.instances && Last(longer).databases == s.databases
      && Last(longer).held == map[DropKey(d) := i]
      && Last(longer).drops == s.drops + [DropRecord(d, OwnDatabase(s, i, d))]
  {
    hide CreateKey, DropKey, DropOnClose, TargetOf, Initial, Step;
    var s, x := Last(run), Last(run).sessions[i];
    longer := ReachOpened(run, i);
    longer := Grow(longer, i, true);
    assert Last(longer).sessions == s.sessions[i := x.(phase := WaitDrop(1, true))];
    longer := Grow(longer, i, true);
    assert Last(longer).sessions == s.sessions[i := x.(phase := InDrop(1, true))];
  }

  function PlainOpts(project: string, instance: string, database: string): Opts {
    ZERO.(projectID := project, instanceID := instance, databaseID := database, disableCreateInstance := true)
  }

  /** With an ID spelled "databases", a create and a drop on one instance can be in
      flight together. */
  lemma OverlapReachable(instance: InstanceName)
    requires NoSlash(instance.project) && NoSlash(instance.id)
    requires instance.project == "databases" || instance.id == "databases"
    ensures exists run: seq<State>, k: nat, a: nat, b: nat ::
      IsRun(run) && k < |run| && CreateMeetsDrop(run[k], a, b, instance)
  {
    var one := PlainOpts(instance.project, instance.id, "first");
    var two := PlainOpts(instance.project, instance.id, "second");
    var x, y := Session(one, Idle, false, false, false, false), Session(two, Idle, false, false, false, false);
    var first := State(map[instance := None], map[], map[], [x, y], [], [], {});
    var d, e := TargetOf(one), TargetOf(two);
    assert d.instance == instance && e.instance == instance && CreateKey(d) == CreateKey(e);
    KeysAgree(d);
    assert DropOnClose(one, true);
    SingletonRun(first);
    hide CreateKey, DropKey, DropOnClose, IsRun, Next;
    var run := ReachInCreate([first], 0);
    run := ReachBootstrapped(run, 0);
    run := ReachInDrop(run, 0);
    run := ReachInCreate(run, 1);
    assert CreateMeetsDrop(run[|run| - 1], 1, 0, instance);
  }

  /** For every instance with slash-free IDs: whether a create and a drop can ever be in
      flight together on it is decided by its two IDs. */
  lemma OverlapExactly(instance: InstanceName)
    requires NoSlash(instance.project) && NoSlash(instance.id)
    ensures (exists run: seq<State>, k: nat, a: nat, b: nat ::
               IsRun(run) && k < |run| && CreateMeetsDrop(run[k], a, b, instance))
       <==> instance.project == "databases" || instance.id == "databases"
  {
    if instance.project == "databases" || instance.id == "databases" {
      OverlapReachable(instance);
    } else {
      forall run: seq<State>, k: nat, a: nat, b: nat | IsRun(run) && k < |run|
        ensures !CreateMeetsDrop(run[k], a, b, instance)
      {
        NoOverlap(run, k, a, b, instance);
      }
    }
  }
}
