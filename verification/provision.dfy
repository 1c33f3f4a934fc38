/** Opening clients, rolling back, dropping with retries and closing, as one session
    runs them (internal.go, close.go, admin_ops.go, spanemuboost.go).

    Server stands for the backend behind the gRPC clients. Its methods choose any
    outcome with `*`, so what is proved holds for every fault schedule. An RPC that
    returns an error has had no effect; NotFound is only said of what is absent, and
    AlreadyExists of what is there.
    Time is in seconds and only moves inside calls and timers. */
module Provision {
  import opened Common
  import opened Options
  import opened Sessions

  datatype Code = OK | NotFound | AlreadyExists | Unavailable | DeadlineExceeded

  /** DDL statements with the proto descriptors they refer to. */
  datatype Schema = Schema(ddls: seq<string>, descriptors: string)

  /** What an open asks of the outside world. */
  datatype SetupCall =
    | DialInstanceAdmin
    | RequestInstance(instance: InstanceName)
    | DialDatabaseAdmin
    | RequestDatabase(database: DatabaseName, dialect: Dialect, schema: Schema)
    | UpdateDDL(database: DatabaseName, schema: Schema)
    | DialData(database: DatabaseName, config: Option<ClientConfig>, clientOptions: seq<string>)
    | RunDML(dmls: seq<string>)

  /** What was asked of the outside world, with the deadline it was given and the answer. */
  datatype Event =
    | Setup(call: SetupCall, code: Code)
    | LockRefused(key: string, deadline: nat)
    | DeleteInstanceIssued(instance: InstanceName, deadline: nat, code: Code)
    | InstanceLookedUp(instance: InstanceName, deadline: nat, code: Code)
    | DropDatabaseIssued(database: DatabaseName, deadline: nat, code: Code)
    | DataClientClosed
    | DatabaseAdminClosed
    | InstanceAdminClosed
    | RequestCustomized(ok: bool)
    | ContainerStarted(ok: bool)
    | EndpointLookedUp(ok: bool)

  /** When a call that starts now and ends by its deadline is over at the latest: a
      deadline that has passed ends it at once. */
  function Limit(now: nat, deadline: nat): nat {
    if now <= deadline then deadline else now
  }

  class Server {
    var instances: set<InstanceName>
    var databases: set<DatabaseName>
    // instanceAdminLocks: a weighted semaphore of one permit for each key seen so far
    var permits: map<string, nat>
    var now: nat
    ghost var log: seq<Event>

    /** Databases live in instances, and no permit is taken between operations. */
    ghost predicate Valid()
      reads this
    {
      && (forall d :: d in databases ==> d.instance in instances)
      && (forall key :: key in permits ==> permits[key] == 1)
    }

    /** The permit of this key is taken. */
    predicate PermitTaken(key: string)
      reads this`permits
    {
      key in permits && permits[key] == 0
    }

    /** Some time passes, but not beyond the deadline of the call. */
    method Elapse(deadline: nat)
      modifies this`now
      ensures old(now) <= now <= Limit(old(now), deadline)
    {
      var spent :| 0 <= spent;
      if now + spent <= deadline {
        now := now + spent;
      }
    }

    /** A call of the set-up takes whatever time it takes. */
    method Wait()
      modifies this`now
      ensures old(now) <= now
    {
      var spent :| 0 <= spent;
      now := now + spent;
    }

    method CreateInstance(i: InstanceName) returns (code: Code)
      modifies this`instances, this`now, this`log
      ensures log == old(log) + [Setup(RequestInstance(i), code)]
      ensures code == OK ==> i !in old(instances) && instances == old(instances) + {i}
      ensures code == AlreadyExists ==> i in instances
      ensures code != OK ==> instances == old(instances)
    {
      Wait();
      code := *;
      if code == OK || code == AlreadyExists {
        code := if i in instances then AlreadyExists else OK;
        instances := instances + {i};
      }
      log := log + [Setup(RequestInstance(i), code)];
    }

    method DeleteInstance(i: InstanceName, deadline: nat) returns (code: Code)
      modifies this`instances, this`databases, this`now, this`log
      ensures log == old(log) + [DeleteInstanceIssued(i, deadline, code)]
      ensures old(now) <= now <= Limit(old(now), deadline)
      ensures code == OK ==>
                i in old(instances) && instances == old(instances) - {i}
                && databases == set d | d in old(databases) && d.instance != i
      ensures code == NotFound ==> i !in instances
      ensures code != OK ==> instances == old(instances) && databases == old(databases)
    {
      Elapse(deadline);
      code := *;
      if code == OK || code == NotFound {
        if i in instances {
          instances := instances - {i};
          databases := set d | d in databases && d.instance != i;
          code := OK;
        } else {
          code := NotFound;
        }
      }
      log := log + [DeleteInstanceIssued(i, deadline, code)];
    }

    method GetInstance(i: InstanceName, deadline: nat) returns (code: Code)
      modifies this`now, this`log
      ensures log == old(log) + [InstanceLookedUp(i, deadline, code)]
      ensures old(now) <= now <= Limit(old(now), deadline)
      ensures code == OK ==> i in instances
      ensures code == NotFound ==> i !in instances
    {
      Elapse(deadline);
      code := *;
      if code == OK || code == NotFound {
        code := if i in instances then OK else NotFound;
      }
      log := log + [InstanceLookedUp(i, deadline, code)];
    }

    /** Must be issued under the permit of the instance. */
    method CreateDatabase(d: DatabaseName, dialect: Dialect, schema: Schema) returns (code: Code)
      requires PermitTaken(CreateKey(d))
      modifies this`databases, this`now, this`log
      ensures log == old(log) + [Setup(RequestDatabase(d, dialect, schema), code)]
      ensures code == OK ==> d !in old(databases) && d.instance in instances && databases == old(databases) + {d}
      ensures code == AlreadyExists ==> d in databases
      ensures code != OK ==> databases == old(databases)
    {
      Wait();
      code := *;
      if code == OK || code == AlreadyExists {
        if d.instance !in instances {
          code := NotFound;
        } else if d in databases {
          code := AlreadyExists;
        } else {
          code := OK;
          databases := databases + {d};
        }
      }
      log := log + [Setup(RequestDatabase(d, dialect, schema), code)];
    }

    /** Must be issued under the permit of the instance, if the path yields one. */
    method DropDatabase(d: DatabaseName, deadline: nat) returns (code: Code)
      requires DropKey(d) == "" || PermitTaken(DropKey(d))
      modifies this`databases, this`now, this`log
      ensures log == old(log) + [DropDatabaseIssued(d, deadline, code)]
      ensures old(now) <= now <= Limit(old(now), deadline)
      ensures code == OK ==> d in old(databases) && databases == old(databases) - {d}
      ensures code == NotFound ==> d !in databases
      ensures code != OK ==> databases == old(databases)
    {
      Elapse(deadline);
      code := *;
      if code == OK || code == NotFound {
        if d in databases {
          databases := databases - {d};
          code := OK;
        } else {
          code := NotFound;
        }
      }
      log := log + [DropDatabaseIssued(d, deadline, code)];
    }

    /** Any other call of the set-up: DDL, DML, dialling. */
    method Attempt(ghost call: SetupCall) returns (ok: bool)
      modifies this`now, this`log
      ensures exists code :: log == old(log) + [Setup(call, code)] && (ok <==> code == OK)
    {
      Wait();
      var code: Code := *;
      ok := code == OK;
      log := log + [Setup(call, code)];
    }

    /** instanceAdminSemaphore. */
    method Semaphore(key: string)
      modifies this`permits
      ensures permits == if key in old(permits) then old(permits) else old(permits)[key := 1]
    {
      if key !in permits {
        permits := permits[key := 1];
      }
    }

    /** semaphore.Acquire: may wait for another holder up to the deadline, and fails
        when it is cancelled there. */
    method Acquire(key: string, deadline: nat) returns (ok: bool)
      requires key in permits
      modifies this`permits, this`now, this`log
      ensures old(now) <= now <= Limit(old(now), deadline)
      ensures ok ==> old(permits)[key] > 0 && permits == old(permits)[key := old(permits)[key] - 1]
      ensures !ok ==> permits == old(permits)
      ensures log == old(log) + (if ok then [] else [LockRefused(key, deadline)])
    {
      Elapse(deadline);
      ok := *;
      if ok && permits[key] > 0 {
        permits := permits[key := permits[key] - 1];
      } else {
        ok := false;
        log := log + [LockRefused(key, deadline)];
      }
    }

    method Release(key: string)
      requires key in permits
      modifies this`permits
      ensures permits == old(permits)[key := old(permits)[key] + 1]
    {
      permits := permits[key := permits[key] + 1];
    }
  }

  /** A gRPC or data client: what matters is how often it was closed, and whether the
      last time failed. */
  class Client {
    ghost var closes: nat
    ghost var closeFailed: bool

    constructor ()
      ensures closes == 0
    {
      closes := 0;
    }

    method Close(server: Server, ghost event: Event) returns (failed: bool)
      modifies this, server`log
      ensures closes == old(closes) + 1 && closeFailed == failed
      ensures server.log == old(server.log) + [event]
    {
      closes := closes + 1;
      server.log := server.log + [event];
      failed := *;
      closeFailed := failed;
    }
  }

  // ------------------------------------------------------------------------
  // Dropping with retries
  // ------------------------------------------------------------------------

  const DROP_DATABASE_TIMEOUT: nat := 120
  const DROP_DATABASE_RETRY_BACKOFF: nat := 15
  const ROLLBACK_TIMEOUT: nat := 30
  const CLOSE_TIMEOUT: nat := 30

  function DropDatabaseRetryBudget(): nat {
    DROP_DATABASE_TIMEOUT * MAX_ATTEMPTS + DROP_DATABASE_RETRY_BACKOFF
  }

  /** The error of an attempt: what the RPC returned, or a lock that was not taken. */
  datatype AttemptError = Rpc(code: Code) | LockFailed

  /** dropDatabaseComplete. */
  predicate DropDatabaseComplete(e: AttemptError) {
    e == Rpc(OK) || e == Rpc(NotFound)
  }

  datatype DropError = NoClient | ContextDone(last: AttemptError) | GaveUp(last: AttemptError)

  datatype Attempt = Attempt(start: nat, end: nat, outcome: AttemptError)

  function Min(a: nat, b: nat): nat {
    if a <= b then a else b
  }

  /** What an attempt leaves in the log: the RPC with its answer, or the refused lock. */
  ghost function AttemptEvent(d: DatabaseName, deadline: nat, outcome: AttemptError): Event {
    match outcome
    case Rpc(code) => DropDatabaseIssued(d, deadline, code)
    case LockFailed => LockRefused(DropKey(d), deadline)
  }

  /** One attempt: the drop RPC under the instance's permit. */
  method TryDrop(server: Server, d: DatabaseName, deadline: nat) returns (outcome: AttemptError)
    requires server.Valid()
    modifies server`databases, server`permits, server`now, server`log
    ensures server.Valid()
    ensures old(server.now) <= server.now <= Limit(old(server.now), deadline)
    ensures outcome == Rpc(OK) ==> d in old(server.databases)
    ensures server.databases == if DropDatabaseComplete(outcome) then old(server.databases) - {d}
              else old(server.databases)
    ensures server.log == old(server.log) + [AttemptEvent(d, deadline, outcome)]
  {
    var key := DropKey(d);
    if key == "" {
      var code := server.DropDatabase(d, deadline);
      return Rpc(code);
    }
    server.Semaphore(key);
    var locked := server.Acquire(key, deadline);
    if !locked {
      return LockFailed;
    }
    var code := server.DropDatabase(d, deadline);
    server.Release(key);
    return Rpc(code);
  }

  /** What a finished retry loop has done, attempt by attempt: 5 seconds between the
      first two, 10 before the third. */
  ghost predicate AttemptsOk(attempts: seq<Attempt>, begin: nat, end: nat) {
    && |attempts| <= MAX_ATTEMPTS
    && (attempts != [] ==> attempts[0].start == begin)
    && forall k :: 0 <= k < |attempts| ==>
         && begin <= attempts[k].start <= attempts[k].end <= end
         && attempts[k].end <= attempts[k].start + DROP_DATABASE_TIMEOUT
         && (k < |attempts| - 1 ==>
               !DropDatabaseComplete(attempts[k].outcome) && attempts[k + 1].start == attempts[k].end + (k + 1) * 5)
  }

  /** A timer of some seconds against the end of the context. */
  method AwaitTimer(server: Server, deadline: nat, seconds: nat) returns (fired: bool)
    modifies server`now
    ensures fired ==> server.now == old(server.now) + seconds <= deadline
    ensures !fired ==> old(server.now) + seconds >= deadline && server.now == Limit(old(server.now), deadline)
  {
    var timerFirst: bool := *;
    fired := server.now + seconds < deadline || (server.now + seconds == deadline && timerFirst);
    server.now := if fired then server.now + seconds else Limit(server.now, deadline);
  }

  /** What these attempts leave in the log, each with its own timeout under the deadline of
      the whole. */
  ghost function Issued(attempts: seq<Attempt>, d: DatabaseName, deadline: nat): (events: seq<Event>)
    ensures |events| == |attempts|
  {
    if attempts == [] then []
    else
      var n := |attempts| - 1;
      Issued(attempts[..n], d, deadline)
      + [AttemptEvent(d, Min(deadline, attempts[n].start + DROP_DATABASE_TIMEOUT), attempts[n].outcome)]
  }

  /** The log has grown by exactly those events. */
  ghost predicate LogGrewBy(before: seq<Event>, after: seq<Event>, attempts: seq<Attempt>, d: DatabaseName,
                            deadline: nat) {
    after == before + Issued(attempts, d, deadline)
  }

  lemma OneMoreIssued(before: seq<Event>, log: seq<Event>, attempts: seq<Attempt>, a: Attempt, d: DatabaseName,
                      deadline: nat)
    requires LogGrewBy(before, log, attempts, d, deadline)
    ensures LogGrewBy(before, log + [AttemptEvent(d, Min(deadline, a.start + DROP_DATABASE_TIMEOUT), a.outcome)],
              attempts + [a], d, deadline)
  {
    assert (attempts + [a])[..|attempts|] == attempts;
  }

  /** The event is about dropping d. */
  ghost predicate AboutDrop(e: Event, d: DatabaseName) {
    (e.DropDatabaseIssued? && e.database == d) || (e.LockRefused? && e.key == DropKey(d))
  }

  lemma {:induction false} IssuedAreDrops(attempts: seq<Attempt>, d: DatabaseName, deadline: nat)
    ensures forall k :: 0 <= k < |attempts| ==> AboutDrop(Issued(attempts, d, deadline)[k], d)
  {
    hide DropKey;
    if attempts == [] {
    } else {
      IssuedAreDrops(attempts[..|attempts| - 1], d, deadline);
    }
  }

  ghost predicate Unfinished(attempts: seq<Attempt>) {
    forall k :: 0 <= k < |attempts| ==> !DropDatabaseComplete(attempts[k].outcome)
  }

  lemma OneMoreAttempt(attempts: seq<Attempt>, begin: nat, a: Attempt)
    requires AttemptsOk(attempts, begin, a.start) && |attempts| < MAX_ATTEMPTS
    requires begin <= a.start <= a.end <= a.start + DROP_DATABASE_TIMEOUT
    requires Unfinished(attempts)
    requires a.start == if attempts == [] then begin else attempts[|attempts| - 1].end + |attempts| * 5
    ensures AttemptsOk(attempts + [a], begin, a.end)
    ensures !DropDatabaseComplete(a.outcome) ==> Unfinished(attempts + [a])
  {
  }

  /** Every attempt starts with its whole timeout left, the last one ends within the
      budget, and the wait after it, if there is one, fits too. */
  ghost predicate WithinBudget(attempts: seq<Attempt>, begin: nat, deadline: nat)
    requires attempts != []
  {
    var end := attempts[|attempts| - 1].end;
    && (forall k :: 0 <= k < |attempts| ==> attempts[k].start + DROP_DATABASE_TIMEOUT <= deadline)
    && end <= begin + DropDatabaseRetryBudget()
    && (|attempts| < MAX_ATTEMPTS ==> end + |attempts| * 5 < deadline)
  }

  /** Under the full budget no attempt and no wait is cut short. */
  lemma KeepsBudget(attempts: seq<Attempt>, begin: nat, end: nat, deadline: nat)
    requires AttemptsOk(attempts, begin, end) && attempts != []
    requires begin + DropDatabaseRetryBudget() <= deadline
    ensures WithinBudget(attempts, begin, deadline)
  {
    if |attempts| >= 2 {
      assert attempts[1].start == attempts[0].end + 5;
    }
    if |attempts| >= 3 {
      assert attempts[2].start == attempts[1].end + 10;
    }
  }

  /** What holds between attempts, and after the last: when each was, and which RPCs
      they issued. */
  ghost predicate Tried(attempts: seq<Attempt>, d: DatabaseName, deadline: nat, begin: nat, now: nat,
                        before: seq<Event>, log: seq<Event>) {
    AttemptsOk(attempts, begin, now) && LogGrewBy(before, log, attempts, d, deadline)
  }

  /** One more attempt, after the wait that follows the earlier ones. */
  method TryAgain(server: Server, deadline: nat, d: DatabaseName, ghost attempts: seq<Attempt>, ghost begin: nat,
                  ghost before: seq<Event>)
    returns (outcome: AttemptError, ghost more: seq<Attempt>)
    requires server.Valid()
    requires |attempts| < MAX_ATTEMPTS && Unfinished(attempts)
              && Tried(attempts, d, deadline, begin, server.now, before, server.log)
    requires begin <= server.now && server.now == if attempts == [] then begin
              else attempts[|attempts| - 1].end + |attempts| * 5
    modifies server`databases, server`permits, server`now, server`log
    ensures server.Valid()
    ensures old(server.now) <= server.now <= Limit(old(server.now), deadline)
    ensures server.databases == if DropDatabaseComplete(outcome) then old(server.databases) - {d}
              else old(server.databases)
    ensures |more| == |attempts| + 1 && more[|attempts|] == Attempt(old(server.now), server.now, outcome)
    ensures Tried(more, d, deadline, begin, server.now, before, server.log)
    ensures !DropDatabaseComplete(outcome) ==> Unfinished(more)
    ensures begin + DropDatabaseRetryBudget() <= deadline ==>
              && WithinBudget(more, begin, deadline) && server.now <= begin + DropDatabaseRetryBudget()
              && (|more| < MAX_ATTEMPTS ==> server.now + |more| * 5 < deadline)
  {
    outcome := TryDrop(server, d, Min(deadline, server.now + DROP_DATABASE_TIMEOUT));
    ghost var last := Attempt(old(server.now), server.now, outcome);
    more := attempts + [last];
    OneMoreAttempt(attempts, begin, last);
    OneMoreIssued(before, old(server.log), attempts, last, d, deadline);
    hide AttemptsOk, LogGrewBy, Issued, Unfinished;
    if begin + DropDatabaseRetryBudget() <= deadline {
      KeepsBudget(more, begin, server.now, deadline);
    }
  }

  lemma MoreTime(attempts: seq<Attempt>, d: DatabaseName, deadline: nat, begin: nat, end: nat, later: nat,
                 before: seq<Event>, log: seq<Event>)
    requires Tried(attempts, d, deadline, begin, end, before, log) && end <= later
    ensures Tried(attempts, d, deadline, begin, later, before, log)
  {
  }

  /** The result of a retry loop that made these attempts. */
  ghost function DropResult(attempts: seq<Attempt>): Option<DropError>
    requires attempts != []
  {
    var last := attempts[|attempts| - 1].outcome;
    if DropDatabaseComplete(last) then None
    else if |attempts| == MAX_ATTEMPTS then Some(GaveUp(last))
    else Some(ContextDone(last))
  }

  /** dropDatabaseWithRetry. It succeeds exactly when its last attempt ran the RPC and
      got OK or NotFound, and then the database is gone; otherwise nothing changed, and the
      error is that of the last attempt, after three attempts or at the end of the context,
      whose deadline the next attempt would not have met. The log shows each attempt, with
      its RPC or the lock it was refused.
      Under a context with the full budget no attempt is cut short: each starts with its
      whole timeout left, all of them run, and the budget is kept. */
  method DropDatabaseWithRetry(server: Server, deadline: nat, client: Client?, d: DatabaseName)
    returns (err: Option<DropError>, ghost attempts: seq<Attempt>)
    requires server.Valid()
    modifies server`databases, server`permits, server`now, server`log
    ensures server.Valid()
    ensures client == null ==> err == Some(NoClient) && attempts == [] && server.databases == old(server.databases)
    ensures client != null ==> attempts != []
    ensures Tried(attempts, d, deadline, old(server.now), server.now, old(server.log), server.log)
    ensures client != null ==> err == DropResult(attempts)
    ensures err.Some? && err.value.ContextDone? ==>
              server.now >= deadline && attempts[|attempts| - 1].end + |attempts| * 5 >= deadline
    ensures err == None ==> server.databases == old(server.databases) - {d}
    ensures err != None ==> server.databases == old(server.databases)
    ensures old(server.now) <= server.now <= Limit(old(server.now), deadline)
    ensures old(server.now) + DropDatabaseRetryBudget() <= deadline ==>
              && server.now <= old(server.now) + DropDatabaseRetryBudget()
              && (client != null ==> WithinBudget(attempts, old(server.now), deadline))
              && (client != null && err != None ==> |attempts| == MAX_ATTEMPTS)
  {
    attempts := [];
    assert Unfinished([]) && Tried([], d, deadline, server.now, server.now, server.log, server.log);
    hide Tried, Issued, Unfinished, WithinBudget, DropDatabaseRetryBudget;
    if client == null {
      return Some(NoClient), [];
    }
    var lastErr := Rpc(OK);
    var attempt := 1;
    ghost var begin := server.now;
    while attempt <= MAX_ATTEMPTS
      invariant 1 <= attempt <= MAX_ATTEMPTS && |attempts| == attempt - 1
      invariant server.Valid() && server.databases == old(server.databases)
      invariant Tried(attempts, d, deadline, begin, server.now, old(server.log), server.log)
      invariant server.now == if attempts == [] then begin else attempts[|attempts| - 1].end + |attempts| * 5
      invariant Unfinished(attempts)
      invariant begin <= server.now <= Limit(begin, deadline)
      decreases MAX_ATTEMPTS - attempt
    {
      lastErr, attempts := TryAgain(server, deadline, d, attempts, begin, old(server.log));
      if DropDatabaseComplete(lastErr) {
        return None, attempts;
      }
      if attempt == MAX_ATTEMPTS {
        break;
      }
      ghost var end := server.now;
      var fired := AwaitTimer(server, deadline, attempt * 5);
      MoreTime(attempts, d, deadline, begin, end, server.now, old(server.log), server.log);
      if !fired {
        return Some(ContextDone(lastErr)), attempts;
      }
      attempt := attempt + 1;
    }
    return Some(GaveUp(lastErr)), attempts;
  }

  // ------------------------------------------------------------------------
  // Bootstrap
  // ------------------------------------------------------------------------

  datatype OpenError =
    | InstanceAdminFailed
    | CreateInstanceFailed(code: Code)
    | DatabaseAdminFailed
    | CreateDatabaseFailed(attempt: AttemptError)
    | UpdateDDLFailed
    | DataClientFailed
    | SetupDMLFailed

  /** createdSchemaResources. */
  datatype Created = Created(instance: bool, database: bool)

  /** The answer counts as success: a database may also be there already. */
  predicate Accepts(call: SetupCall, code: Code) {
    code == OK || (call.RequestDatabase? && code == AlreadyExists)
  }

  /** The event is this call, and it succeeded. */
  ghost predicate Achieved(call: SetupCall, e: Event) {
    e.Setup? && e.call == call && Accepts(call, e.code)
  }

  /** The event is this call, and it failed; or its lock was refused. */
  ghost predicate Refused(call: SetupCall, e: Event) {
    || (e.Setup? && e.call == call && !Accepts(call, e.code))
    || (call.RequestDatabase? && e.LockRefused? && e.key == CreateKey(call.database))
  }

  /** The error of an open that ends with this refusal. */
  ghost function CauseOf(call: SetupCall, e: Event): OpenError
    requires Refused(call, e)
  {
    match call
    case DialInstanceAdmin => InstanceAdminFailed
    case RequestInstance(_) => CreateInstanceFailed(e.code)
    case DialDatabaseAdmin => DatabaseAdminFailed
    case RequestDatabase(_, _, _) => CreateDatabaseFailed(if e.LockRefused? then LockFailed else Rpc(e.code))
    case UpdateDDL(_, _) => UpdateDDLFailed
    case DialData(_, _, _) => DataClientFailed
    case RunDML(_) => SetupDMLFailed
  }

  /** These events carry out the plan: without an error every call of it was made, in its
      order, and succeeded; with one, the last event is the first that failed, and the
      error is its. */
  ghost predicate Follows(plan: seq<SetupCall>, events: seq<Event>, cause: Option<OpenError>) {
    && |events| <= |plan|
    && (forall k :: 0 <= k < |events| - (if cause.None? then 0 else 1) ==> Achieved(plan[k], events[k]))
    && (cause.None? ==> |events| == |plan|)
    && (cause.Some? ==>
          && events != []
          && Refused(plan[|events| - 1], events[|events| - 1])
          && cause.value == CauseOf(plan[|events| - 1], events[|events| - 1]))
  }

  lemma FollowsOn(p: seq<SetupCall>, q: seq<SetupCall>, a: seq<Event>, b: seq<Event>, cause: Option<OpenError>)
    requires Follows(p, a, None) && Follows(q, b, cause)
    ensures Follows(p + q, a + b, cause)
  {
    hide Achieved, Refused, CauseOf;
    var plan, events := p + q, a + b;
    var n := if cause.None? then 0 else 1;
    forall k | 0 <= k < |events| - n ensures Achieved(plan[k], events[k]) {
      if k < |a| {
        assert plan[k] == p[k] && events[k] == a[k];
      } else {
        assert plan[k] == q[k - |a|] && events[k] == b[k - |a|];
      }
    }
    if cause.Some? {
      assert plan[|events| - 1] == q[|b| - 1] && events[|events| - 1] == b[|b| - 1];
    }
  }

  lemma FollowsSoFar(p: seq<SetupCall>, q: seq<SetupCall>, a: seq<Event>, cause: Option<OpenError>)
    requires Follows(p, a, cause) && cause.Some?
    ensures Follows(p + q, a, cause)
  {
    hide Achieved, Refused, CauseOf;
    assert forall k :: 0 <= k < |p| ==> (p + q)[k] == p[k];
  }

  lemma OneCall(call: SetupCall, events: seq<Event>, cause: Option<OpenError>)
    requires |events| == 1 && events[0].Setup? && events[0].call == call && !call.RequestDatabase?
    requires cause == if events[0].code == OK then None else Some(CauseOf(call, events[0]))
    ensures Follows([call], events, cause)
  {
  }

  function SchemaOf(o: Opts): Schema {
    Schema(o.setupDDLs, o.setupFileDescriptorSet)
  }

  function InstancePlan(o: Opts): seq<SetupCall> {
    if o.disableCreateInstance then [] else [RequestInstance(TargetOf(o).instance)]
  }

  /** A database is created with its schema; one that is there gets it by an update. */
  function DatabasePlan(o: Opts): seq<SetupCall> {
    if !o.disableCreateDatabase then [RequestDatabase(TargetOf(o), o.databaseDialect, SchemaOf(o))]
    else if o.setupDDLs != [] then [UpdateDDL(TargetOf(o), SchemaOf(o))]
    else []
  }

  function DataDial(o: Opts): SetupCall {
    DialData(TargetOf(o), o.clientConfig, o.clientOptionsForClient)
  }

  function ClientPlan(o: Opts): seq<SetupCall> {
    [DataDial(o)] + if o.setupDMLs != [] then [RunDML(o.setupDMLs)] else []
  }

  method BootstrapInstance(server: Server, o: Opts)
    returns (created: bool, err: Option<OpenError>, ghost events: seq<Event>)
    requires server.Valid()
    modifies server`instances, server`now, server`log
    ensures server.Valid()
    ensures server.log == old(server.log) + events && Follows(InstancePlan(o), events, err)
    ensures server.instances == if created then old(server.instances) + {TargetOf(o).instance}
              else old(server.instances)
    ensures created ==> TargetOf(o).instance !in old(server.instances)
    ensures err == None ==> (created <==> !o.disableCreateInstance)
    ensures err != None ==> !created
  {
    events := [];
    if o.disableCreateInstance {
      return false, None, events;
    }
    var code := server.CreateInstance(TargetOf(o).instance);
    events := [Setup(RequestInstance(TargetOf(o).instance), code)];
    if code != OK {
      return false, Some(CreateInstanceFailed(code)), events;
    }
    return true, None, events;
  }

  /** createDatabase: the RPC under the permit of the instance path. */
  method CreateDatabase(server: Server, o: Opts)
    returns (created: bool, err: Option<OpenError>, ghost events: seq<Event>)
    requires server.Valid() && !o.disableCreateDatabase
    modifies server`databases, server`permits, server`now, server`log
    ensures server.Valid()
    ensures server.log == old(server.log) + events && Follows(DatabasePlan(o), events, err)
    ensures server.databases == if created then old(server.databases) + {TargetOf(o)} else old(server.databases)
    ensures created ==> TargetOf(o) !in old(server.databases)
    ensures err == None ==> TargetOf(o) in server.databases && (created <==> TargetOf(o) !in old(server.databases))
    ensures err != None ==> !created
  {
    var d := TargetOf(o);
    var key := CreateKey(d);
    hide TargetOf, CreateKey;
    server.Semaphore(key);
    var deadline :| 0 <= deadline;
    var locked := server.Acquire(key, deadline);
    if !locked {
      events := [LockRefused(key, deadline)];
      return false, Some(CreateDatabaseFailed(LockFailed)), events;
    }
    var code := server.CreateDatabase(d, o.databaseDialect, SchemaOf(o));
    server.Release(key);
    events := [Setup(RequestDatabase(d, o.databaseDialect, SchemaOf(o)), code)];
    if code != OK {
      if code == AlreadyExists {
        return false, None, events;
      }
      return false, Some(CreateDatabaseFailed(Rpc(code))), events;
    }
    return true, None, events;
  }

  method BootstrapDatabase(server: Server, o: Opts)
    returns (created: bool, err: Option<OpenError>, ghost events: seq<Event>)
    requires server.Valid()
    modifies server`databases, server`permits, server`now, server`log
    ensures server.Valid()
    ensures server.log == old(server.log) + events && Follows(DatabasePlan(o), events, err)
    ensures server.databases == if created then old(server.databases) + {TargetOf(o)} else old(server.databases)
    ensures created ==> TargetOf(o) !in old(server.databases) && !o.disableCreateDatabase
    ensures err == None && !o.disableCreateDatabase ==>
              TargetOf(o) in server.databases && (created <==> TargetOf(o) !in old(server.databases))
    ensures err != None ==> !created
  {
    hide TargetOf;
    if !o.disableCreateDatabase {
      created, err, events := CreateDatabase(server, o);
      return;
    }
    events := [];
    if o.setupDDLs != [] {
      var ok := server.Attempt(UpdateDDL(TargetOf(o), SchemaOf(o)));
      events := server.log[|old(server.log)|..];
      return false, if ok then None else Some(UpdateDDLFailed), events;
    }
    return false, None, events;
  }

  // ------------------------------------------------------------------------
  // Rollback
  // ------------------------------------------------------------------------

  datatype RollbackError =
    | DeleteInstanceFailed(code: Code)
    | NoInstanceClient
    | GetInstanceFailed(code: Code)
    | DropFailed(drop: DropError)

  /** Every recorded resource is on the server. */
  ghost predicate Held(resources: Created, d: DatabaseName, instances: set<InstanceName>,
                       databases: set<DatabaseName>) {
    (resources.instance ==> d.instance in instances) && (resources.database ==> d in databases)
  }

  /** No recorded resource is on the server. */
  ghost predicate Gone(resources: Created, d: DatabaseName, instances: set<InstanceName>,
                       databases: set<DatabaseName>) {
    (resources.instance ==> d.instance !in instances) && (resources.database ==> d !in databases)
  }

  /** What a rollback asks about the recorded instance: its deletion, and if that fails
      with a database recorded too, whether it is still there. */
  ghost predicate AsksInstance(events: seq<Event>, resources: Created, hasClient: bool, i: InstanceName,
                               deadline: nat) {
    if !resources.instance || !hasClient then events == []
    else
      && events != []
      && events[0].DeleteInstanceIssued? && events[0].instance == i && events[0].deadline == deadline
      && (if events[0].code == OK || !resources.database then |events| == 1
          else
            && |events| == 2 && events[1].InstanceLookedUp?
            && events[1].instance == i && events[1].deadline == deadline)
  }

  /** After these answers the recorded database has to be dropped by itself. */
  ghost predicate DropsNext(events: seq<Event>, resources: Created, hasClient: bool) {
    && resources.database
    && (resources.instance && hasClient ==>
          |events| == 2 && events[1].InstanceLookedUp? && events[1].code == OK)
  }

  /** What these answers add to the errors. */
  ghost function AskErrors(events: seq<Event>, resources: Created, hasClient: bool): seq<RollbackError> {
    if !resources.instance then []
    else if !hasClient then [NoInstanceClient]
    else
      (if |events| >= 1 && events[0].DeleteInstanceIssued? && events[0].code != OK
       then [DeleteInstanceFailed(events[0].code)] else [])
      + (if |events| >= 2 && events[1].InstanceLookedUp? && events[1].code != OK && events[1].code != NotFound
         then [GetInstanceFailed(events[1].code)] else [])
  }

  /** What a rollback does first: the recorded instance. */
  method RollbackInstance(server: Server, instanceClient: Client?, d: DatabaseName, resources: Created, deadline: nat)
    returns (errs: seq<RollbackError>, dropDatabase: bool, ghost events: seq<Event>)
    requires server.Valid() && resources.instance
    modifies server`instances, server`databases, server`now, server`log
    ensures server.Valid()
    ensures server.log == old(server.log) + events
    ensures AsksInstance(events, resources, instanceClient != null, d.instance, deadline)
    ensures errs == AskErrors(events, resources, instanceClient != null)
    ensures dropDatabase <==> DropsNext(events, resources, instanceClient != null)
    ensures errs == [] ==>
              && d.instance in old(server.instances) && server.instances == old(server.instances) - {d.instance}
              && server.databases == set e | e in old(server.databases) && e.instance != d.instance
    ensures errs != [] ==> server.instances == old(server.instances) && server.databases == old(server.databases)
    ensures errs != [] && instanceClient != null && resources.database && !dropDatabase ==>
              errs[|errs| - 1].GetInstanceFailed? || d.instance !in server.instances
    ensures dropDatabase && instanceClient != null ==> d.instance in server.instances
    ensures old(server.now) <= server.now <= Limit(old(server.now), deadline)
  {
    events, errs, dropDatabase := [], [], false;
    if instanceClient == null {
      return [NoInstanceClient], resources.database, events;
    }
    var code := server.DeleteInstance(d.instance, deadline);
    events := [DeleteInstanceIssued(d.instance, deadline, code)];
    if code != OK {
      errs := [DeleteInstanceFailed(code)];
      if resources.database {
        // instanceStillExists
        var existing := server.GetInstance(d.instance, deadline);
        events := events + [InstanceLookedUp(d.instance, deadline, existing)];
        if existing != OK && existing != NotFound {
          errs := errs + [GetInstanceFailed(existing)];
        }
        dropDatabase := existing == OK;
      }
    }
  }

  /** The errors of dropping the recorded database; no attempt means that there is no
      client for it. */
  ghost function DropErrors(attempts: seq<Attempt>): seq<RollbackError> {
    if attempts == [] then [DropFailed(NoClient)]
    else match DropResult(attempts) case Some(e) => [DropFailed(e)] case None => []
  }

  /** The part of a rollback that drops the recorded database. */
  method RollbackDatabase(server: Server, databaseClient: Client?, d: DatabaseName, deadline: nat)
    returns (errs: seq<RollbackError>, ghost attempts: seq<Attempt>)
    requires server.Valid()
    modifies server`databases, server`permits, server`now, server`log
    ensures server.Valid()
    ensures Tried(attempts, d, deadline, old(server.now), server.now, old(server.log), server.log)
    ensures errs == DropErrors(attempts)
    ensures attempts == [] <==> databaseClient == null
    ensures errs == [] || (|errs| == 1 && errs[0].DropFailed?)
    ensures server.databases == if errs == [] then old(server.databases) - {d} else old(server.databases)
    ensures old(server.now) <= server.now <= Limit(old(server.now), deadline)
  {
    hide Tried;
    var dropErr;
    dropErr, attempts := DropDatabaseWithRetry(server, deadline, databaseClient, d);
    errs := if dropErr.Some? then [DropFailed(dropErr.value)] else [];
  }

  /** What a whole rollback asks and returns: first the recorded instance; then, if that
      left the recorded database behind or there is no recorded instance, the database,
      with retries. */
  ghost predicate RolledBack(resources: Created, hasInstanceClient: bool, hasDatabaseClient: bool, d: DatabaseName,
                             deadline: nat, events: seq<Event>, asked: seq<Event>, attempts: seq<Attempt>,
                             errs: seq<RollbackError>) {
    && AsksInstance(asked, resources, hasInstanceClient, d.instance, deadline)
    && events == asked + Issued(attempts, d, deadline)
    && (attempts != [] <==> DropsNext(asked, resources, hasInstanceClient) && hasDatabaseClient)
    && errs == AskErrors(asked, resources, hasInstanceClient)
               + (if DropsNext(asked, resources, hasInstanceClient) then DropErrors(attempts) else [])
  }

  /** The event is one that a rollback of d may cause. */
  ghost predicate AboutRollback(e: Event, d: DatabaseName) {
    || (e.DeleteInstanceIssued? && e.instance == d.instance)
    || (e.InstanceLookedUp? && e.instance == d.instance)
    || AboutDrop(e, d)
  }

  lemma RollbackAsksForTarget(resources: Created, hasInstanceClient: bool, hasDatabaseClient: bool, d: DatabaseName,
                              deadline: nat, events: seq<Event>, asked: seq<Event>, attempts: seq<Attempt>,
                              errs: seq<RollbackError>)
    requires RolledBack(resources, hasInstanceClient, hasDatabaseClient, d, deadline, events, asked, attempts, errs)
    ensures forall k :: 0 <= k < |events| ==> AboutRollback(events[k], d)
  {
    IssuedAreDrops(attempts, d, deadline);
    hide Issued, AboutDrop, AskErrors, DropErrors, DropsNext;
  }

  /** rollbackCreatedResources. When all that is recorded is still there, as after a
      failed open, no error means exactly that all of it is gone. A recorded instance
      that somebody else has deleted is always reported as an error. A recorded
      database that is left behind is owned up to: its drop failed, or it was not known
      whether its instance was still there. Whatever the outcome, only recorded resources
      (and what lives in a recorded instance) can be gone, and every error is that of a
      call that was made and failed, or of a missing client. */
  method RollbackCreatedResources(server: Server, instanceClient: Client?, databaseClient: Client?, o: Opts,
                                  resources: Created)
    returns (errs: seq<RollbackError>, ghost events: seq<Event>, ghost asked: seq<Event>,
             ghost attempts: seq<Attempt>)
    requires server.Valid()
    modifies server`instances, server`databases, server`permits, server`now, server`log
    ensures server.Valid()
    ensures server.log == old(server.log) + events
    ensures RolledBack(resources, instanceClient != null, databaseClient != null, TargetOf(o),
                       old(server.now) + ROLLBACK_TIMEOUT, events, asked, attempts, errs)
    ensures errs == [] && resources.instance ==>
              && server.instances == old(server.instances) - {TargetOf(o).instance}
              && server.databases == set d | d in old(server.databases) && d.instance != TargetOf(o).instance
    ensures errs == [] && !resources.instance ==>
              && server.instances == old(server.instances)
              && server.databases == old(server.databases) - (if resources.database then {TargetOf(o)} else {})
    ensures server.instances == old(server.instances) ||
              (resources.instance && server.instances == old(server.instances) - {TargetOf(o).instance})
    ensures server.databases <= old(server.databases)
    ensures forall d :: d in old(server.databases) && d !in server.databases ==>
              (resources.database && d == TargetOf(o)) || (resources.instance && d.instance == TargetOf(o).instance)
    ensures Held(resources, TargetOf(o), old(server.instances), old(server.databases)) ==>
              (errs == [] <==> Gone(resources, TargetOf(o), server.instances, server.databases))
    ensures resources.instance && TargetOf(o).instance !in old(server.instances) ==>
              errs != [] && Gone(resources, TargetOf(o), server.instances, server.databases)
    ensures resources == Created(false, false) ==> errs == []
    ensures resources.database
              && (forall k :: 0 <= k < |errs| ==> !errs[k].GetInstanceFailed? && !errs[k].DropFailed?) ==>
              TargetOf(o) !in server.databases
    ensures server.now <= old(server.now) + ROLLBACK_TIMEOUT
  {
    var deadline := server.now + ROLLBACK_TIMEOUT;
    var d := TargetOf(o);
    assert d.instance !in server.instances ==> d !in server.databases;
    hide TargetOf, Tried, DropErrors;
    errs, asked, attempts := [], [], [];
    var dropDatabase := resources.database;
    if resources.instance {
      errs, dropDatabase, asked := RollbackInstance(server, instanceClient, d, resources, deadline);
    }
    events := asked;
    if dropDatabase {
      var dropErrs;
      ghost var before := server.log;
      dropErrs, attempts := RollbackDatabase(server, databaseClient, d, deadline);
      events := asked + Issued(attempts, d, deadline);
      errs := errs + dropErrs;
      assert dropErrs != [] ==> errs[|errs| - 1].DropFailed?;
    }
  }

  // ------------------------------------------------------------------------
  // Opening
  // ------------------------------------------------------------------------

  datatype CloseError =
    | NoInstanceAdmin
    | NoDatabaseAdmin
    | DeleteFailed(code: Code)
    | DropNotDone(drop: DropError)
    | DatabaseAdminClose
    | InstanceAdminClose

  class Clients {
    const instanceClient: Client?
    const databaseClient: Client?
    const client: Client?
    const target: DatabaseName
    var dropDatabase: bool
    var dropInstance: bool

    // closeState: nil or begun-and-done in a single goroutine
    var closed: bool
    var closeErr: seq<CloseError>

    constructor (instanceClient: Client?, databaseClient: Client?, client: Client?, target: DatabaseName,
                 dropDatabase: bool, dropInstance: bool)
      ensures this.instanceClient == instanceClient && this.databaseClient == databaseClient && this.client == client
      ensures this.target == target && this.dropDatabase == dropDatabase && this.dropInstance == dropInstance
      ensures !closed && closeErr == []
    {
      this.instanceClient, this.databaseClient, this.client := instanceClient, databaseClient, client;
      this.target, this.dropDatabase, this.dropInstance := target, dropDatabase, dropInstance;
      closed, closeErr := false, [];
    }

    /** The three handles of a successful open: distinct and never closed. */
    ghost predicate Fresh()
      reads this, instanceClient, databaseClient, client
    {
      && instanceClient != null && databaseClient != null && client != null
      && instanceClient != databaseClient && instanceClient != client && databaseClient != client
      && instanceClient.closes == 0 && databaseClient.closes == 0 && client.closes == 0
      && !closed
    }

    /** disableSchemaTeardownUnlessForced. */
    method DisableSchemaTeardownUnlessForced(o: Opts)
      modifies this`dropDatabase, this`dropInstance
      ensures dropDatabase == (old(dropDatabase) && ForcedTeardown(o))
      ensures dropInstance == (old(dropInstance) && ForcedTeardown(o))
    {
      if !ForcedTeardown(o) {
        dropDatabase := false;
        dropInstance := false;
      }
    }

    /** The handles that are there are different objects. */
    ghost predicate Distinct()
      reads this
    {
      && (instanceClient != null ==> instanceClient != databaseClient && instanceClient != client)
      && (databaseClient != null ==> databaseClient != client)
    }

    /** The instances left when teardown is complete. */
    ghost function TornDownInstances(instances: set<InstanceName>): set<InstanceName>
      reads `dropInstance
    {
      if dropInstance then instances - {target.instance} else instances
    }

    /** The databases left when teardown is complete. */
    ghost function TornDownDatabases(databases: set<DatabaseName>): set<DatabaseName>
      reads `dropInstance, `dropDatabase
    {
      if dropInstance then set d | d in databases && d.instance != target.instance
      else if dropDatabase then databases - {target}
      else databases
    }

    /** What the teardown of a Close that begins now asks of the server: one deletion of the
        own instance; or the drop of the own database with the whole retry budget, which no
        attempt exceeds; or nothing. */
    ghost predicate TearsDown(events: seq<Event>, attempts: seq<Attempt>, begin: nat)
      reads `dropInstance, `dropDatabase
    {
      if dropInstance && instanceClient != null then
        && attempts == [] && |events| == 1
        && events[0].DeleteInstanceIssued? && events[0].instance == target.instance
        && events[0].deadline == begin + CLOSE_TIMEOUT
      else if !dropInstance && dropDatabase && databaseClient != null then
        && attempts != [] && WithinBudget(attempts, begin, begin + DropDatabaseRetryBudget())
        && events == Issued(attempts, target, begin + DropDatabaseRetryBudget())
        && (DropResult(attempts).Some? ==> |attempts| == MAX_ATTEMPTS)
      else events == [] && attempts == []
    }

    /** The errors of the teardown: of a missing client, or of the calls that failed. */
    ghost function TearDownErrors(events: seq<Event>, attempts: seq<Attempt>): seq<CloseError>
      reads `dropInstance, `dropDatabase
    {
      if dropInstance then
        if events == [] then [NoInstanceAdmin]
        else if events[0].DeleteInstanceIssued? && events[0].code != OK then [DeleteFailed(events[0].code)]
        else []
      else if dropDatabase then
        if attempts == [] then [NoDatabaseAdmin]
        else match DropResult(attempts) case Some(e) => [DropNotDone(e)] case None => []
      else []
    }

    /** The teardown part of Close. */
    method TearDown(server: Server)
      returns (errs: seq<CloseError>, ghost events: seq<Event>, ghost attempts: seq<Attempt>)
      requires server.Valid()
      modifies server`instances, server`databases, server`permits, server`now, server`log
      ensures server.Valid()
      ensures server.log == old(server.log) + events
      ensures TearsDown(events, attempts, old(server.now))
      ensures errs == TearDownErrors(events, attempts)
      ensures errs == [] ==>
                server.instances == TornDownInstances(old(server.instances))
                    && server.databases == TornDownDatabases(old(server.databases))
      ensures errs != [] ==> server.instances == old(server.instances) && server.databases == old(server.databases)
    {
      errs, events, attempts := [], [], [];
      if dropInstance {
        if instanceClient == null {
          errs := errs + [NoInstanceAdmin];
        } else {
          var deadline := server.now + CLOSE_TIMEOUT;
          var code := server.DeleteInstance(target.instance, deadline);
          events := [DeleteInstanceIssued(target.instance, deadline, code)];
          if code != OK {
            errs := errs + [DeleteFailed(code)];
          }
        }
      } else if dropDatabase {
        if databaseClient == null {
          errs := errs + [NoDatabaseAdmin];
        } else {
          var dropErr;
          ghost var begin := server.now;
          var deadline := server.now + DropDatabaseRetryBudget();
          dropErr, attempts := DropDatabaseWithRetry(server, deadline, databaseClient, target);
          events := Issued(attempts, target, deadline);
          if dropErr.Some? {
            errs := errs + [DropNotDone(dropErr.value)];
          }
        }
      }
    }

    /** The admin clients' errors, in the order they are closed. */
    ghost function AdminErrors(): seq<CloseError>
      reads databaseClient, instanceClient
    {
      (if databaseClient != null && databaseClient.closeFailed then [DatabaseAdminClose] else [])
      + (if instanceClient != null && instanceClient.closeFailed then [InstanceAdminClose] else [])
    }

    method CloseAdminClients(server: Server) returns (errs: seq<CloseError>)
      requires Distinct()
      modifies instanceClient, databaseClient, server`log
      ensures errs == AdminErrors()
      ensures instanceClient != null ==> instanceClient.closes == old(instanceClient.closes) + 1
      ensures databaseClient != null ==> databaseClient.closes == old(databaseClient.closes) + 1
      ensures server.log == old(server.log) + (if databaseClient != null then [DatabaseAdminClosed] else [])
                                            + (if instanceClient != null then [InstanceAdminClosed] else [])
    {
      errs := [];
      if databaseClient != null {
        var failed := databaseClient.Close(server, DatabaseAdminClosed);
        if failed {
          errs := errs + [DatabaseAdminClose];
        }
      }
      if instanceClient != null {
        var failed := instanceClient.Close(server, InstanceAdminClosed);
        if failed {
          errs := errs + [InstanceAdminClose];
        }
      }
    }

    ghost function CloseLog(log: seq<Event>, teardown: seq<Event>): seq<Event>
    {
      log + (if client != null then [DataClientClosed] else []) + teardown
      + (if databaseClient != null then [DatabaseAdminClosed] else [])
      + (if instanceClient != null then [InstanceAdminClosed] else [])
    }

    /** What lives of the server after a teardown with these errors. */
    ghost predicate TornDown(errs: seq<CloseError>, instances: set<InstanceName>, databases: set<DatabaseName>,
                             after: set<InstanceName>, left: set<DatabaseName>)
      reads `dropInstance, `dropDatabase
    {
      if errs == [] then after == TornDownInstances(instances) && left == TornDownDatabases(databases)
      else after == instances && left == databases
    }

    /** Close. The first call closes the data client, then tears down what its flags
        say, then closes the admin clients, and joins their errors; later calls do nothing
        and return the same error. The teardown is complete exactly if it has no error of
        its own. */
    method Close(server: Server)
      returns (errs: seq<CloseError>, ghost teardown: seq<Event>, ghost attempts: seq<Attempt>)
      requires server.Valid() && Distinct()
      modifies this`closed, this`closeErr, server`instances, server`databases, server`permits, server`now, server`log
      modifies instanceClient, databaseClient, client
      ensures server.Valid() && closed && errs == closeErr
      ensures old(closed) ==> errs == old(closeErr) && unchanged(server)
      ensures var n := if old(closed) then 0 else 1;
        && (instanceClient != null ==> instanceClient.closes == old(instanceClient.closes) + n)
        && (databaseClient != null ==> databaseClient.closes == old(databaseClient.closes) + n)
        && (client != null ==> client.closes == old(client.closes) + n)
      ensures !old(closed) ==>
                && server.log == CloseLog(old(server.log), teardown)
                && TearsDown(teardown, attempts, old(server.now))
                && errs == TearDownErrors(teardown, attempts) + AdminErrors()
      ensures !old(closed) ==>
                TornDown(TearDownErrors(teardown, attempts), old(server.instances), old(server.databases),
                         server.instances, server.databases)
    {
      hide TornDownDatabases, TornDownInstances, TearsDown, TearDownErrors, AdminErrors;
      if closed {
        return closeErr, [], [];
      }
      if client != null {
        var _ := client.Close(server, DataClientClosed);
      }
      errs, teardown, attempts := TearDown(server);
      var adminErrs := CloseAdminClients(server);
      errs := errs + adminErrs;
      closed, closeErr := true, errs;
    }
  }

  datatype OpenFailure = OpenFailure(cause: OpenError, rollback: seq<RollbackError>)

  /** Everything an open asks for once its instance admin client exists. */
  function RestOfPlan(o: Opts): seq<SetupCall> {
    InstancePlan(o) + [DialDatabaseAdmin] + DatabasePlan(o) + ClientPlan(o)
  }

  /** Everything an open asks for: with all of it granted it succeeds, and the first thing
      refused is its error. */
  function Plan(o: Opts): seq<SetupCall> {
    [DialInstanceAdmin] + RestOfPlan(o)
  }

  /** A call that is not in the plan is not in the events. */
  lemma OnlyPlanned(plan: seq<SetupCall>, events: seq<Event>, cause: Option<OpenError>, call: SetupCall)
    requires Follows(plan, events, cause) && call !in plan
    ensures Setup(call, OK) !in events
  {
  }

  /** Which plans dial which clients. */
  lemma DialsApart(o: Opts)
    ensures DialDatabaseAdmin !in InstancePlan(o) && DataDial(o) !in InstancePlan(o)
    ensures DialDatabaseAdmin !in DatabasePlan(o) && DataDial(o) !in DatabasePlan(o)
    ensures DialDatabaseAdmin !in ClientPlan(o) && DataDial(o) != DialDatabaseAdmin
  {
  }

  /** The data client, and the set-up statements that need it. */
  method BootstrapClient(server: Server, o: Opts)
    returns (client: Client?, cause: Option<OpenError>, ghost events: seq<Event>)
    modifies server`now, server`log
    ensures server.log == old(server.log) + events && Follows(ClientPlan(o), events, cause)
    ensures cause == None ==> client != null
    ensures client != null <==> Setup(DataDial(o), OK) in events
    ensures client != null ==> fresh(client) && client.closes == 0
  {
    client, cause := null, None;
    hide TargetOf;
    var ok := server.Attempt(DataDial(o));
    events := server.log[|old(server.log)|..];
    if !ok {
      cause := Some(DataClientFailed);
      return;
    }
    client := new Client();
    if o.setupDMLs != [] {
      ghost var dialled := events;
      ok := server.Attempt(RunDML(o.setupDMLs));
      events := server.log[|old(server.log)|..];
      assert events == dialled + [events[1]];
      if !ok {
        cause := Some(SetupDMLFailed);
      }
    }
  }

  /** The steps of an open after its instance admin client exists. No database is
      recorded as created without a database client. */
  method Bootstrap(server: Server, o: Opts)
    returns (resources: Created, databaseClient: Client?, client: Client?, cause: Option<OpenError>,
             ghost events: seq<Event>)
    requires server.Valid()
    modifies server`instances, server`databases, server`permits, server`now, server`log
    ensures server.Valid()
    ensures server.log == old(server.log) + events && Follows(RestOfPlan(o), events, cause)
    ensures server.instances == old(server.instances) + (if resources.instance then {TargetOf(o).instance} else {})
    ensures server.databases == old(server.databases) + (if resources.database then {TargetOf(o)} else {})
    ensures resources.instance ==> TargetOf(o).instance !in old(server.instances) && !o.disableCreateInstance
    ensures resources.database ==> TargetOf(o) !in old(server.databases) && !o.disableCreateDatabase
    ensures resources.database ==> databaseClient != null
    ensures client != null ==> databaseClient != null && client != databaseClient
    ensures databaseClient != null ==> fresh(databaseClient) && databaseClient.closes == 0
    ensures client != null ==> fresh(client) && client.closes == 0
    ensures databaseClient != null <==> Setup(DialDatabaseAdmin, OK) in events
    ensures client != null <==> Setup(DataDial(o), OK) in events
    ensures cause == None ==> client != null && resources.instance == !o.disableCreateInstance
    ensures cause == None && !o.disableCreateDatabase ==>
              TargetOf(o) in server.databases && (resources.database <==> TargetOf(o) !in old(server.databases))
  {
    DialsApart(o);
    hide TargetOf, Follows, InstancePlan, DatabasePlan, ClientPlan, DataDial;
    resources, databaseClient, client := Created(false, false), null, null;
    var instanceCreated;
    ghost var p1, p2, p3, p4 := InstancePlan(o), [DialDatabaseAdmin], DatabasePlan(o), ClientPlan(o);
    ghost var e1, e2, e3, e4;
    instanceCreated, cause, e1 := BootstrapInstance(server, o);
    OnlyPlanned(p1, e1, cause, DialDatabaseAdmin);
    OnlyPlanned(p1, e1, cause, DataDial(o));
    events := e1;
    resources := resources.(instance := instanceCreated);
    if cause.Some? {
      FollowsSoFar(p1, p2 + p3 + p4, e1, cause);
      assert p1 + (p2 + p3 + p4) == RestOfPlan(o);
      return;
    }
    var ok := server.Attempt(DialDatabaseAdmin);
    e2 := server.log[|old(server.log) + e1|..];
    events := e1 + e2;
    cause := if ok then None else Some(DatabaseAdminFailed);
    OneCall(DialDatabaseAdmin, e2, cause);
    FollowsOn(p1, p2, e1, e2, cause);
    if !ok {
      FollowsSoFar(p1 + p2, p3 + p4, events, cause);
      assert p1 + p2 + (p3 + p4) == RestOfPlan(o);
      return;
    }
    databaseClient := new Client();
    var databaseCreated;
    databaseCreated, cause, e3 := BootstrapDatabase(server, o);
    OnlyPlanned(p3, e3, cause, DataDial(o));
    resources := resources.(database := databaseCreated);
    events := e1 + e2 + e3;
    FollowsOn(p1 + p2, p3, e1 + e2, e3, cause);
    if cause.Some? {
      FollowsSoFar(p1 + p2 + p3, p4, events, cause);
      return;
    }
    client, cause, e4 := BootstrapClient(server, o);
    events := e1 + e2 + e3 + e4;
    FollowsOn(p1 + p2 + p3, p4, e1 + e2 + e3, e4, cause);
  }

  /** The server is what it was before, plus these resources, which were not there. */
  ghost predicate JustCreated(resources: Created, d: DatabaseName, instances: set<InstanceName>,
                              databases: set<DatabaseName>, now: set<InstanceName>, held: set<DatabaseName>) {
    && now == instances + (if resources.instance then {d.instance} else {})
    && held == databases + (if resources.database then {d} else {})
    && (resources.instance ==> d.instance !in instances)
    && (resources.database ==> d !in databases)
    && (forall e :: e in databases ==> e.instance in instances)
  }

  /** What a rollback after a failed open amounts to: it gives back at most what was
      created, and all of it exactly if it reports no error. */
  lemma RollbackRestores(resources: Created, d: DatabaseName, instances: set<InstanceName>,
                         databases: set<DatabaseName>, now: set<InstanceName>, held: set<DatabaseName>,
                         after: set<InstanceName>, left: set<DatabaseName>, clean: bool)
    requires JustCreated(resources, d, instances, databases, now, held)
    requires Held(resources, d, now, held) ==> (clean <==> Gone(resources, d, after, left))
    requires clean && resources.instance ==>
              after == now - {d.instance} && left == set e | e in held && e.instance != d.instance
    requires clean && !resources.instance ==>
              after == now && left == held - (if resources.database then {d} else {})
    requires after == now || (resources.instance && after == now - {d.instance})
    requires left <= held
    requires forall e :: e in held && e !in left ==>
              (resources.database && e == d) || (resources.instance && e.instance == d.instance)
    ensures instances <= after <= instances + {d.instance} && databases <= left <= databases + {d}
    ensures clean <==> after == instances && left == databases
  {
  }

  /** What cleaning up leaves in the log. */
  ghost function CleanUpLog(dataClient: bool, databaseClient: bool, undo: seq<Event>): seq<Event> {
    (if dataClient then [DataClientClosed] else []) + undo
    + (if databaseClient then [DatabaseAdminClosed] else []) + [InstanceAdminClosed]
  }

  /** The deferred function of a failed open: close the data client, roll back, close
      the admin clients. */
  method CleanUpFailedOpen(server: Server, instanceClient: Client, databaseClient: Client?, client: Client?, o: Opts,
                           resources: Created)
    returns (rollback: seq<RollbackError>, ghost undo: seq<Event>, ghost asked: seq<Event>,
             ghost attempts: seq<Attempt>)
    requires server.Valid()
    requires instanceClient != databaseClient && instanceClient != client
              && (client != null ==> client != databaseClient)
    modifies server`instances, server`databases, server`permits, server`now, server`log
    modifies instanceClient, databaseClient, client
    ensures server.Valid()
    ensures instanceClient.closes == old(instanceClient.closes) + 1
    ensures databaseClient != null ==> databaseClient.closes == old(databaseClient.closes) + 1
    ensures client != null ==> client.closes == old(client.closes) + 1
    ensures server.log == old(server.log) + CleanUpLog(client != null, databaseClient != null, undo)
    ensures RolledBack(resources, true, databaseClient != null, TargetOf(o), old(server.now) + ROLLBACK_TIMEOUT,
                       undo, asked, attempts, rollback)
    ensures Held(resources, TargetOf(o), old(server.instances), old(server.databases)) ==>
              (rollback == [] <==> Gone(resources, TargetOf(o), server.instances, server.databases))
    ensures rollback == [] && resources.instance ==>
              && server.instances == old(server.instances) - {TargetOf(o).instance}
              && server.databases == set d | d in old(server.databases) && d.instance != TargetOf(o).instance
    ensures rollback == [] && !resources.instance ==>
              && server.instances == old(server.instances)
              && server.databases == old(server.databases) - (if resources.database then {TargetOf(o)} else {})
    ensures server.instances == old(server.instances) ||
              (resources.instance && server.instances == old(server.instances) - {TargetOf(o).instance})
    ensures server.databases <= old(server.databases)
    ensures forall d :: d in old(server.databases) && d !in server.databases ==>
              (resources.database && d == TargetOf(o)) || (resources.instance && d.instance == TargetOf(o).instance)
  {
    hide RolledBack, TargetOf, Held, Gone;
    if client != null {
      var _ := client.Close(server, DataClientClosed);
    }
    rollback, undo, asked, attempts := RollbackCreatedResources(server, instanceClient, databaseClient, o, resources);
    if databaseClient != null {
      var _ := databaseClient.Close(server, DatabaseAdminClosed);
    }
    var _ := instanceClient.Close(server, InstanceAdminClosed);
  }

  lemma PlanStops(o: Opts, dial: seq<Event>, cause: Option<OpenError>)
    requires Follows([DialInstanceAdmin], dial, cause) && cause.Some?
    ensures Follows(Plan(o), dial, cause)
  {
    hide Follows, RestOfPlan;
    FollowsSoFar([DialInstanceAdmin], RestOfPlan(o), dial, cause);
  }

  /** The rest of the plan dials other clients. */
  lemma PlanGoesOn(o: Opts, dial: seq<Event>, rest: seq<Event>, cause: Option<OpenError>)
    requires Follows([DialInstanceAdmin], dial, None) && Follows(RestOfPlan(o), rest, cause)
    ensures Follows(Plan(o), dial + rest, cause)
    ensures Setup(DialInstanceAdmin, OK) in dial + rest
    ensures forall call: SetupCall :: call != DialInstanceAdmin ==>
              (Setup(call, OK) in dial + rest <==> Setup(call, OK) in rest)
  {
    assert dial == [Setup(DialInstanceAdmin, OK)];
    hide Follows, RestOfPlan;
    FollowsOn([DialInstanceAdmin], RestOfPlan(o), dial, rest, cause);
  }

  /** How a failed open was cleaned up: from when on, what the rollback asked about the
      instance, which drops it attempted, all that it asked, and the whole clean-up. */
  datatype CleanUp = CleanUp(begin: nat, asked: seq<Event>, attempts: seq<Attempt>, undo: seq<Event>,
                             events: seq<Event>)

  const NO_CLEAN_UP := CleanUp(0, [], [], [], [])

  /** What a failed open leaves in the log after its set-up. Without an instance admin
      client there is nothing to clean up; otherwise whatever was dialled is closed, around
      the rollback of what was created. */
  ghost predicate CleanedUp(setup: seq<Event>, c: CleanUp, created: Created, o: Opts, rollback: seq<RollbackError>) {
    if Setup(DialInstanceAdmin, OK) !in setup then c == NO_CLEAN_UP && rollback == []
    else
      var databaseClient := Setup(DialDatabaseAdmin, OK) in setup;
      && c.events == CleanUpLog(Setup(DataDial(o), OK) in setup, databaseClient, c.undo)
      && RolledBack(created, true, databaseClient, TargetOf(o), c.begin + ROLLBACK_TIMEOUT, c.undo, c.asked,
                    c.attempts, rollback)
  }

  /** How many clients an open has dialled. */
  ghost function DialCount(setup: seq<Event>, o: Opts): nat {
    (if Setup(DialInstanceAdmin, OK) in setup then 1 else 0) + (if Setup(DialDatabaseAdmin, OK) in setup then 1 else 0)
    + (if Setup(DataDial(o), OK) in setup then 1 else 0)
  }

  lemma NothingDialled(o: Opts, dial: seq<Event>, cause: Option<OpenError>, created: Created)
    requires Follows([DialInstanceAdmin], dial, cause) && cause.Some?
    ensures DialCount(dial, o) == 0 && CleanedUp(dial, NO_CLEAN_UP, created, o, [])
  {
    hide TargetOf;
  }

  lemma CountDials(setup: seq<Event>, o: Opts, databaseClient: bool, dataClient: bool)
    requires Setup(DialInstanceAdmin, OK) in setup
    requires databaseClient <==> Setup(DialDatabaseAdmin, OK) in setup
    requires dataClient <==> Setup(DataDial(o), OK) in setup
    ensures DialCount(setup, o) == 1 + (if databaseClient then 1 else 0) + (if dataClient then 1 else 0)
  {
  }

  /** The open has failed after its instance admin client was there: clean up, and what that
      makes of the server as it was before the open. */
  method AbandonOpen(server: Server, instanceClient: Client, databaseClient: Client?, client: Client?, o: Opts,
                     resources: Created, ghost setup: seq<Event>, ghost instances: set<InstanceName>,
                     ghost databases: set<DatabaseName>)
    returns (rollback: seq<RollbackError>, ghost cleanUp: CleanUp)
    requires server.Valid()
    requires instanceClient != databaseClient && instanceClient != client
              && (client != null ==> client != databaseClient)
    requires JustCreated(resources, TargetOf(o), instances, databases, server.instances, server.databases)
    requires Setup(DialInstanceAdmin, OK) in setup
    requires databaseClient != null <==> Setup(DialDatabaseAdmin, OK) in setup
    requires client != null <==> Setup(DataDial(o), OK) in setup
    modifies server`instances, server`databases, server`permits, server`now, server`log
    modifies instanceClient, databaseClient, client
    ensures server.Valid()
    ensures instanceClient.closes == old(instanceClient.closes) + 1
    ensures databaseClient != null ==> databaseClient.closes == old(databaseClient.closes) + 1
    ensures client != null ==> client.closes == old(client.closes) + 1
    ensures server.log == old(server.log) + cleanUp.events && CleanedUp(setup, cleanUp, resources, o, rollback)
    ensures instances <= server.instances <= instances + {TargetOf(o).instance}
    ensures databases <= server.databases <= databases + {TargetOf(o)}
    ensures rollback == [] <==> server.instances == instances && server.databases == databases
  {
    hide RolledBack, TargetOf, CleanUpLog, JustCreated, Held, Gone;
    ghost var begin, undo, asked, attempts := server.now, [], [], [];
    rollback, undo, asked, attempts :=
      CleanUpFailedOpen(server, instanceClient, databaseClient, client, o, resources);
    RollbackRestores(resources, TargetOf(o), instances, databases, old(server.instances), old(server.databases),
                     server.instances, server.databases, rollback == []);
    cleanUp := CleanUp(begin, asked, attempts, undo, CleanUpLog(client != null, databaseClient != null, undo));
  }

  /** bootstrapAndCreateClientsWithOptions.

      Success: everything of the plan was granted; the server has gained exactly the
      resources recorded as created; the flags for Close follow from them; no handle has
      been closed.
      Failure: the first call of the plan that was refused is the cause; every handle that
      was opened has been closed exactly once, around a rollback; nothing that was there
      before is gone; and the server holds exactly what it held before if and only if the
      rollback reports no error. */
  method OpenClients(server: Server, o: Opts)
    returns (clients: Clients?, err: Option<OpenFailure>, ghost created: Created, ghost handles: seq<Client>,
             ghost setup: seq<Event>, ghost cleanUp: CleanUp)
    requires server.Valid()
    modifies server`instances, server`databases, server`permits, server`now, server`log
    ensures server.Valid()
    ensures clients == null <==> err != None
    ensures server.log == old(server.log) + setup + cleanUp.events
    ensures Follows(Plan(o), setup, if err.Some? then Some(err.value.cause) else None)
    ensures clients != null ==> cleanUp == NO_CLEAN_UP
    ensures clients == null ==> CleanedUp(setup, cleanUp, created, o, err.value.rollback)
    ensures |handles| == DialCount(setup, o)
    ensures clients != null ==>
              && fresh(clients) && clients.Fresh()
              && fresh(clients.instanceClient) && fresh(clients.databaseClient) && fresh(clients.client)
              && handles == [clients.instanceClient, clients.databaseClient, clients.client]
              && clients.target == TargetOf(o)
    ensures clients != null ==>
              && server.instances == old(server.instances) + (if created.instance then {TargetOf(o).instance} else {})
              && server.databases == old(server.databases) + (if created.database then {TargetOf(o)} else {})
              && created.instance == !o.disableCreateInstance
    ensures created.instance ==> TargetOf(o).instance !in old(server.instances) && !o.disableCreateInstance
    ensures created.database ==> TargetOf(o) !in old(server.databases) && !o.disableCreateDatabase
    ensures clients != null && !o.disableCreateDatabase ==>
              TargetOf(o) in server.databases && (created.database <==> TargetOf(o) !in old(server.databases))
    ensures clients != null ==>
              && clients.dropDatabase == DropOnClose(o, created.database)
              && clients.dropInstance == (ShouldDropInstance(o) && created.instance)
    ensures clients == null ==>
              && (forall k :: 0 <= k < |handles| ==> fresh(handles[k]) && handles[k].closes == 1)
              && (forall j, k :: 0 <= j < k < |handles| ==> handles[j] != handles[k])
    ensures clients == null ==>
              && old(server.instances) <= server.instances <= old(server.instances) + {TargetOf(o).instance}
              && old(server.databases) <= server.databases <= old(server.databases) + {TargetOf(o)}
    ensures clients == null ==>
              (err.value.rollback == []
               <==> server.instances == old(server.instances) && server.databases == old(server.databases))
  {
    hide TargetOf, Follows, RolledBack, Plan, RestOfPlan, CleanedUp, CleanUpLog, DialCount;
    created, handles, cleanUp := Created(false, false), [], NO_CLEAN_UP;
    clients, err := null, None;
    var ok := server.Attempt(DialInstanceAdmin);
    setup := server.log[|old(server.log)|..];
    ghost var dial := setup;
    ghost var dialCause := if ok then None else Some(InstanceAdminFailed);
    OneCall(DialInstanceAdmin, dial, dialCause);
    if !ok {
      PlanStops(o, dial, dialCause);
      NothingDialled(o, dial, dialCause, created);
      return null, Some(OpenFailure(InstanceAdminFailed, [])), created, handles, setup, cleanUp;
    }
    var instanceClient := new Client();
    handles := [instanceClient];
    ghost var rest;
    var createdResources, databaseClient, client, cause;
    createdResources, databaseClient, client, cause, rest := Bootstrap(server, o);
    created := createdResources;
    setup := dial + rest;
    PlanGoesOn(o, dial, rest, cause);
    CountDials(setup, o, databaseClient != null, client != null);
    handles := handles + (if databaseClient != null then [databaseClient] else []);
    handles := handles + (if client != null then [client] else []);
    if cause.Some? {
      var rollback;
      assert JustCreated(created, TargetOf(o), old(server.instances), old(server.databases), server.instances,
                         server.databases);
      hide JustCreated;
      rollback, cleanUp := AbandonOpen(server, instanceClient, databaseClient, client, o, createdResources, setup,
                                       old(server.instances), old(server.databases));
      return null, Some(OpenFailure(cause.value, rollback)), created, handles, setup, cleanUp;
    }
    var forceTeardown := ForcedTeardown(o);
    clients := new Clients(instanceClient, databaseClient, client, TargetOf(o),
                           ShouldDropDatabase(o) && (createdResources.database || forceTeardown),
                           ShouldDropInstance(o) && (createdResources.instance || forceTeardown));
  }

  // ------------------------------------------------------------------------
  // Opening and closing again
  // ------------------------------------------------------------------------

  /** Nothing of the teardown failed. */
  predicate OnlyAdminErrors(errs: seq<CloseError>) {
    forall k :: 0 <= k < |errs| ==> errs[k].DatabaseAdminClose? || errs[k].InstanceAdminClose?
  }

  /** The rule of the teardown options: what they force or skip, and by default everything
      but a random ID. */
  predicate TornDownByRule(teardown: Option<bool>, randomID: bool) {
    teardown == Some(true) || (teardown == None && !randomID)
  }

  /** Whether these options tear down exactly what they create on a server that holds
      these databases: an instance created here is dropped with all that is in it;
      otherwise a database created here is dropped, and one that was there before is
      not. */
  predicate TeardownMatchesCreation(o: Opts, before: set<DatabaseName>) {
    if o.disableCreateInstance then
      || o.disableCreateDatabase
      || (if TargetOf(o) in before then o.schemaTeardown != Some(true)
          else TornDownByRule(o.schemaTeardown, o.randomDatabaseID))
    else TornDownByRule(o.schemaTeardown, o.randomInstanceID)
  }

  /** With a random database ID, teardown is not the default: unless it is forced, the
      database stays behind. */
  lemma RandomDatabaseStaysBehind(o: Opts, before: set<DatabaseName>)
    requires o.disableCreateInstance && !o.disableCreateDatabase && TargetOf(o) !in before
    requires o.randomDatabaseID && !ForcedTeardown(o)
    ensures !TeardownMatchesCreation(o, before)
  {
  }

  /** What a clean session leaves behind, by the options alone. An instance that it created
      goes exactly if the rule of the teardown options applies to it, with its databases.
      Otherwise a database that it created goes exactly if the rule applies, and one that
      was there before exactly under forced teardown, both only with creation enabled.
      Nothing else changes. */
  ghost predicate LeftBehind(o: Opts, instances: set<InstanceName>, databases: set<DatabaseName>,
                             after: set<InstanceName>, left: set<DatabaseName>) {
    var d := TargetOf(o);
    var instanceGoes := !o.disableCreateInstance && TornDownByRule(o.schemaTeardown, o.randomInstanceID);
    && (o.disableCreateInstance ==> after == instances)
    && (!o.disableCreateInstance ==> (d.instance in after <==> !instanceGoes) && after - {d.instance} == instances)
    && (o.disableCreateDatabase ==> left == databases)
    && (!o.disableCreateDatabase ==>
          && (d in left <==>
                !instanceGoes && (if d in databases then o.schemaTeardown != Some(true)
                                  else !TornDownByRule(o.schemaTeardown, o.randomDatabaseID)))
          && left - {d} == databases - {d})
  }

  /** What an open and a complete teardown make of the server. */
  lemma SessionLeaves(o: Opts, created: Created, instances: set<InstanceName>, databases: set<DatabaseName>,
                      now: set<InstanceName>, held: set<DatabaseName>, dropInstance: bool, dropDatabase: bool,
                      after: set<InstanceName>, left: set<DatabaseName>)
    requires JustCreated(created, TargetOf(o), instances, databases, now, held)
    requires created.instance == !o.disableCreateInstance
    requires created.database == (!o.disableCreateDatabase && TargetOf(o) !in databases)
    requires !o.disableCreateDatabase ==> TargetOf(o) in held
    requires dropDatabase == DropOnClose(o, created.database)
    requires dropInstance == (ShouldDropInstance(o) && created.instance)
    requires after == if dropInstance then now - {TargetOf(o).instance} else now
    requires left == if dropInstance then set d | d in held && d.instance != TargetOf(o).instance
                     else if dropDatabase then held - {TargetOf(o)} else held
    ensures LeftBehind(o, instances, databases, after, left)
    ensures after == instances && left == databases <==> TeardownMatchesCreation(o, databases)
  {
    hide TargetOf;
    if dropInstance {
      assert after == instances && left == databases;
    }
  }

  /** One whole session. If the open fails, the server is as before exactly when the
      rollback reports no error. If the open succeeds and the teardown has no error of its
      own, what stays follows from the options alone; in particular the server is as before
      exactly when teardown matches creation. Whatever happens, no instance that was there
      before is gone, and a database only under forced teardown with creation enabled; and
      nothing that the options say to keep is torn down. */
  method OpenThenClose(server: Server, o: Opts) returns (openErr: Option<OpenFailure>, closeErr: seq<CloseError>)
    requires server.Valid()
    modifies server`instances, server`databases, server`permits, server`now, server`log
    ensures server.Valid()
    ensures openErr.Some? ==>
              (server.instances == old(server.instances) && server.databases == old(server.databases)
               <==> openErr.value.rollback == [])
    ensures openErr.None? && OnlyAdminErrors(closeErr) ==>
              (server.instances == old(server.instances) && server.databases == old(server.databases)
               <==> TeardownMatchesCreation(o, old(server.databases)))
    ensures openErr.None? && OnlyAdminErrors(closeErr) ==>
              LeftBehind(o, old(server.instances), old(server.databases), server.instances, server.databases)
    ensures openErr.None? && o.schemaTeardown == Some(false) ==>
              && (!o.disableCreateInstance ==> TargetOf(o).instance in server.instances)
              && (!o.disableCreateDatabase ==> TargetOf(o) in server.databases)
    ensures old(server.instances) <= server.instances
    ensures forall d :: d in old(server.databases) && d !in server.databases ==>
              d == TargetOf(o) && ForcedTeardown(o) && !o.disableCreateDatabase
  {
    var clients, err;
    ghost var created;
    hide TargetOf, WithinBudget, Issued, LeftBehind, TeardownMatchesCreation, CleanedUp, Follows, Clients.TearsDown;
    ghost var handles, setup, cleanUp;
    clients, err, created, handles, setup, cleanUp := OpenClients(server, o);
    if clients == null {
      return err, [];
    }
    ghost var instances, databases := server.instances, server.databases;
    var closeErrs;
    ghost var teardown, attempts;
    closeErrs, teardown, attempts := clients.Close(server);
    closeErr := closeErrs;
    openErr := None;
    ghost var tornDown := clients.TearDownErrors(teardown, attempts);
    assert tornDown != [] ==> closeErr[0] == tornDown[0];
    assert JustCreated(created, TargetOf(o), old(server.instances), old(server.databases), instances, databases);
    if tornDown == [] {
      SessionLeaves(o, created, old(server.instances), old(server.databases), instances, databases,
                    clients.dropInstance, clients.dropDatabase, server.instances, server.databases);
    }
  }
}
