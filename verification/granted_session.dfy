/** A session alone whose every call is granted: what it does is what its options say, from
    the first dial to the last deletion; and what becomes of it after a single failure. The
    safety laws of the transition system hold of sessions that never finish anything; these
    laws say that they do. */
module GrantedSession {
  import opened Common
  import opened Options
  import opened Sessions
  import opened Ownership
  import opened LoneSession
  import Provision

  predicate Alone(s: State) {
    |s.sessions| == 1
  }

  /** The state after n steps of the only session, all of them granted, or fewer if it is
      over before. */
  function Granted(s: State, n: nat): (r: State)
    requires Alone(s)
    decreases n
  {
    if n == 0 then s
    else
      match Next(s, 0, true)
      case Some(b) => if Alone(b) then Granted(b, n - 1) else b
      case None => s
  }

  lemma OneStep(s: State, b: State, n: nat)
    requires Alone(s) && Alone(b) && Next(s, 0, true) == Some(b)
    ensures Granted(s, n + 1) == Granted(b, n)
  {
  }

  // ------------------------------------------------------------------------
  // Taking down
  // ------------------------------------------------------------------------

  /** The lock of the session's own drop is free. */
  predicate LockFree(s: State)
    requires Alone(s)
  {
    DropKey(s.sessions[0].Target()) !in s.held
  }

  /** The session has dropped its database, and is over. */
  ghost predicate DroppedBy(s: State, end: State)
    requires Alone(s)
  {
    var x := s.sessions[0];
    && end.sessions == [x.(phase := Over, dropped := true)]
    && end.instances == s.instances && end.databases == s.databases - {x.Target()}
  }

  /** The session has deleted its instance, and is over. */
  ghost predicate DeletedBy(s: State, end: State)
    requires Alone(s)
  {
    var x, i := s.sessions[0], s.sessions[0].Target().instance;
    && end.sessions == [x.(phase := Over, instanceGone := true, dropped := true)]
    && end.instances == s.instances - {i} && end.databases == s.databases - Inhabitants(s, i)
  }

  lemma DropGranted(s: State)
    requires Alone(s) && s.sessions[0].phase.WaitDrop? && LockFree(s)
    ensures DroppedBy(s, Granted(s, 2))
  {
    hide TargetOf, DropKey, OwnDatabase;
    var b := Next(s, 0, true).value;
    assert b.sessions == [s.sessions[0].(phase := b.sessions[0].phase)];
    assert b.sessions[0].phase.InDrop?;
    var end := Next(b, 0, true).value;
    OneStep(s, b, 1);
    OneStep(b, end, 0);
    assert end.sessions == [s.sessions[0].(phase := Over, dropped := true)];
  }

  lemma DeleteGranted(s: State)
    requires Alone(s) && s.sessions[0].phase.WaitDelete? && s.sessions[0].Target().instance in s.instances
    ensures DeletedBy(s, Granted(s, 2))
  {
    hide TargetOf, OwnInstance, Others;
    var b := Next(s, 0, true).value;
    assert b.sessions == [s.sessions[0].(phase := b.sessions[0].phase)];
    assert b.sessions[0].phase.InDelete?;
    assert Inhabitants(b, b.sessions[0].Target().instance) == Inhabitants(s, s.sessions[0].Target().instance);
    var end := Next(b, 0, true).value;
    OneStep(s, b, 1);
    OneStep(b, end, 0);
  }

  lemma {:induction false} StuckStays(s: State, n: nat)
    requires Alone(s) && Next(s, 0, true).None?
    ensures forall k: nat :: Granted(s, k) == s
  {
  }

  lemma {:induction false} GrantedMore(s: State, m: nat, n: nat)
    requires Alone(s) && Alone(Granted(s, m))
    ensures Granted(Granted(s, m), n) == Granted(s, m + n)
    decreases m
  {
    if m == 0 {
    } else {
      match Next(s, 0, true)
      case Some(b) =>
        if Alone(b) {
          hide Next;
          GrantedMore(b, m - 1, n);
        }
      case None => StuckStays(s, n);
    }
  }

  // ------------------------------------------------------------------------
  // Opening
  // ------------------------------------------------------------------------

  /** Even with every call granted the open fails: the instance to be created is there
      already, or the one to create a database in is not. */
  ghost predicate Hopeless(o: Opts, s: State) {
    if o.disableCreateInstance then !o.disableCreateDatabase && TargetOf(o).instance !in s.instances
    else TargetOf(o).instance in s.instances
  }

  /** b is s with the session in this state, and nothing else changed. */
  ghost predicate OnlySessionMoved(s: State, b: State, x: Session) {
    b.sessions == [x] && b.instances == s.instances && b.databases == s.databases && b.held == s.held
  }

  lemma StartGranted(s: State)
    requires Alone(s) && s.sessions[0] == Session(s.sessions[0].opts, Idle, false, false, false, false)
    ensures var x, end := s.sessions[0], Granted(s, 2);
      && Alone(end)
      && if x.opts.disableCreateInstance then OnlySessionMoved(s, end, x.(phase := InstanceReady))
         else if x.Target().instance in s.instances then OnlySessionMoved(s, end, x.(phase := Over))
         else
           && end.sessions == [x.(phase := InstanceReady, createdInstance := true)] && end.held == s.held
           && end.instances == s.instances[x.Target().instance := Some(0)] && end.databases == s.databases
  {
    hide TargetOf;
    var b := Next(s, 0, true).value;
    assert OnlySessionMoved(s, b, s.sessions[0].(phase := AdminOpen));
    OneStep(s, b, 1);
    OneStep(b, Next(b, 0, true).value, 0);
  }

  lemma UseGranted(s: State)
    requires Alone(s) && s.sessions[0].phase.Bootstrapped?
    ensures OnlySessionMoved(s, Granted(s, 2), s.sessions[0].(phase := Opened))
  {
    hide TargetOf;
    var b := Next(s, 0, true).value;
    assert OnlySessionMoved(s, b, s.sessions[0].(phase := DataOpen));
    OneStep(s, b, 1);
    OneStep(b, Next(b, 0, true).value, 0);
  }

  /** The open has come to nothing. */
  ghost predicate Refused(s: State, end: State) {
    Alone(end) && end.sessions[0].phase.Over? && end.instances == s.instances && end.databases == s.databases
  }

  lemma OnlyPermit(s: State, key: string)
    requires s.held == map[key := 0]
    ensures Unlock(s, key).held == map[]
  {
    assert Unlock(s, key).held.Keys == {};
  }

  /** The create RPC is about to be issued, under its permit. */
  lemma EntersCreate(s: State)
    requires Alone(s) && s.sessions[0].phase.InstanceReady? && s.held == map[]
    requires !s.sessions[0].opts.disableCreateDatabase
    ensures var x, end := s.sessions[0], Granted(s, 2);
      && end.sessions == [x.(phase := InCreate)] && end.held == map[CreateKey(x.Target()) := 0]
      && end.instances == s.instances && end.databases == s.databases
  {
    hide TargetOf, CreateKey;
    var b := Next(s, 0, true).value;
    assert OnlySessionMoved(s, b, s.sessions[0].(phase := WaitCreate));
    OneStep(s, b, 1);
    OneStep(b, Next(b, 0, true).value, 0);
  }

  /** The session has created its database or found it. */
  ghost predicate HasDatabase(s: State, end: State)
    requires Alone(s)
  {
    var x, d := s.sessions[0], s.sessions[0].Target();
    && end.held == map[] && end.instances == s.instances
    && if d in s.databases then end.sessions == [x.(phase := Bootstrapped)] && end.databases == s.databases
       else end.sessions == [x.(phase := Bootstrapped, created := true)] && end.databases == s.databases[d := Some(0)]
  }

  lemma CreateEnds(s: State)
    requires Alone(s) && s.sessions[0].phase.InCreate? && s.held == map[CreateKey(s.sessions[0].Target()) := 0]
    requires s.sessions[0].Target().instance in s.instances
    ensures HasDatabase(s, Granted(s, 1))
  {
    hide TargetOf, CreateKey, Unlock;
    var key := CreateKey(s.sessions[0].Target());
    OnlyPermit(s, key);
    UnlockKeeps(s, key);
    OneStep(s, Next(s, 0, true).value, 0);
  }

  lemma CreateGranted(s: State)
    requires Alone(s) && s.sessions[0].phase.InstanceReady? && s.held == map[]
    requires !s.sessions[0].opts.disableCreateDatabase && s.sessions[0].Target().instance in s.instances
    ensures HasDatabase(s, Granted(s, 3))
  {
    hide TargetOf, CreateKey, Granted;
    EntersCreate(s);
    CreateEnds(Granted(s, 2));
    GrantedMore(s, 2, 1);
  }

  lemma CreateHopeless(s: State)
    requires Alone(s) && s.sessions[0].phase.InstanceReady? && s.held == map[]
    requires !s.sessions[0].opts.disableCreateDatabase && s.sessions[0].Target().instance !in s.instances
    requires !s.sessions[0].createdInstance && !s.sessions[0].created
    ensures Refused(s, Granted(s, 3))
  {
    EntersCreate(s);
    var c := Granted(s, 2);
    hide TargetOf, CreateKey, Unlock;
    UnlockKeeps(c, CreateKey(s.sessions[0].Target()));
    OneStep(c, Next(c, 0, true).value, 0);
    hide Granted, Next;
    GrantedMore(s, 2, 1);
  }

  lemma NothingToCreate(s: State)
    requires Alone(s) && s.sessions[0].phase.InstanceReady? && s.sessions[0].opts.disableCreateDatabase
    ensures OnlySessionMoved(s, Granted(s, 1), s.sessions[0].(phase := Bootstrapped))
  {
    hide TargetOf;
    OneStep(s, Next(s, 0, true).value, 0);
  }

  /** The session is open: it has created what it was to create and was not there, and holds
      no permit. */
  ghost predicate OpenedBy(s: State, end: State)
    requires Alone(s)
  {
    var o, d := s.sessions[0].opts, s.sessions[0].Target();
    var creates := !o.disableCreateDatabase && d !in s.databases;
    && end.sessions == [Session(o, Opened, !o.disableCreateInstance, creates, false, false)] && end.held == map[]
    && end.instances == (if o.disableCreateInstance then s.instances else s.instances[d.instance := Some(0)])
    && end.databases == (if creates then s.databases[d := Some(0)] else s.databases)
  }

  /** From an instance that is ready to the end of the open. */
  lemma FinishOpenGranted(s: State) returns (n: nat)
    requires Alone(s) && s.held == map[]
    requires s.sessions[0]
          == Session(s.sessions[0].opts, InstanceReady, s.sessions[0].createdInstance, false, false, false)
    requires s.sessions[0].createdInstance ==> s.sessions[0].Target().instance in s.instances
    ensures var x, d, end := s.sessions[0], s.sessions[0].Target(), Granted(s, n);
      var creates := !x.opts.disableCreateDatabase && d !in s.databases;
      if !x.opts.disableCreateDatabase && d.instance !in s.instances then Refused(s, end)
      else
        && end.sessions == [x.(phase := Opened, created := creates)] && end.held == map[]
        && end.instances == s.instances
        && end.databases == (if creates then s.databases[d := Some(0)] else s.databases)
  {
    hide Granted, TargetOf;
    var x := s.sessions[0];
    if x.opts.disableCreateDatabase {
      NothingToCreate(s);
      UseGranted(Granted(s, 1));
      GrantedMore(s, 1, 2);
      n := 3;
    } else if x.Target().instance !in s.instances {
      CreateHopeless(s);
      n := 3;
    } else {
      CreateGranted(s);
      UseGranted(Granted(s, 3));
      GrantedMore(s, 3, 2);
      n := 5;
    }
  }

  lemma OpenGranted(s: State) returns (n: nat)
    requires Initial(s) && Alone(s)
    ensures if Hopeless(s.sessions[0].opts, s) then Refused(s, Granted(s, n)) else OpenedBy(s, Granted(s, n))
  {
    var x := s.sessions[0];
    assert x == Session(x.opts, Idle, false, false, false, false);
    assert x.Target().instance !in s.instances ==> x.Target() !in s.databases;
    hide Granted, TargetOf;
    StartGranted(s);
    if !x.opts.disableCreateInstance && x.Target().instance in s.instances {
      return 2;
    }
    var more := FinishOpenGranted(Granted(s, 2));
    GrantedMore(s, 2, more);
    n := 2 + more;
  }

  /** Close, with every call granted, does all that its flags say. */
  lemma CloseGranted(s: State) returns (n: nat)
    requires Alone(s) && s.sessions[0].phase.Opened? && s.held == map[]
    requires s.sessions[0].createdInstance ==> s.sessions[0].Target().instance in s.instances
    requires s.sessions[0].createdInstance == !s.sessions[0].opts.disableCreateInstance
    ensures var x, end := s.sessions[0], Granted(s, n);
      && Alone(end) && end.sessions[0].phase.Over? && end.sessions[0].opts == x.opts
      && if DropInstanceOnClose(x.opts, x.createdInstance) then
           end.instances == s.instances - {x.Target().instance}
           && end.databases == s.databases - Inhabitants(s, x.Target().instance)
         else if DropOnClose(x.opts, x.created) then
           end.instances == s.instances && end.databases == s.databases - {x.Target()}
         else end.instances == s.instances && end.databases == s.databases
  {
    hide TargetOf, DropKey;
    var x := s.sessions[0];
    var b := Next(s, 0, true).value;
    OneStep(s, b, 0);
    hide Granted;
    if DropInstanceOnClose(x.opts, x.createdInstance) {
      assert OnlySessionMoved(s, b, x.(phase := WaitDelete(true)));
      DeleteGranted(b);
      GrantedMore(s, 1, 2);
      assert Inhabitants(b, x.Target().instance) == Inhabitants(s, x.Target().instance);
      n := 3;
    } else if DropOnClose(x.opts, x.created) {
      assert OnlySessionMoved(s, b, x.(phase := WaitDrop(1, true)));
      DropGranted(b);
      GrantedMore(s, 1, 2);
      n := 3;
    } else {
      assert OnlySessionMoved(s, b, x.(phase := Over));
      n := 1;
    }
  }

  lemma LeavesBehind(s: State, mid: State, end: State)
    requires Initial(s) && Alone(s) && !Hopeless(s.sessions[0].opts, s) && OpenedBy(s, mid)
    requires var x, y, d := s.sessions[0], mid.sessions[0], s.sessions[0].Target();
      if DropInstanceOnClose(x.opts, y.createdInstance) then
        end.instances == mid.instances - {d.instance} && end.databases == mid.databases - Inhabitants(mid, d.instance)
      else if DropOnClose(x.opts, y.created) then
        end.instances == mid.instances && end.databases == mid.databases - {d}
      else end.instances == mid.instances && end.databases == mid.databases
    ensures Provision.LeftBehind(s.sessions[0].opts, s.instances.Keys, s.databases.Keys, end.instances.Keys,
                                 end.databases.Keys)
  {
    var x, d := s.sessions[0], s.sessions[0].Target();
    assert d.instance !in s.instances ==> forall e :: e in s.databases ==> e.instance != d.instance;
    hide TargetOf;
  }

  /** A session alone, with every call granted: if the instance it is to create is there
      already, or the one it is to create a database in is not, nothing changes; otherwise
      it opens, closes, and leaves behind what its options say. */
  lemma SessionGranted(s: State)
    requires Initial(s) && Alone(s)
    ensures exists n: nat ::
      var end := Granted(s, n);
      && Alone(end) && end.sessions[0].phase.Over?
      && if Hopeless(s.sessions[0].opts, s) then SameServer(s, end)
         else Provision.LeftBehind(s.sessions[0].opts, s.instances.Keys, s.databases.Keys, end.instances.Keys,
                                   end.databases.Keys)
  {
    var n := OpenGranted(s);
    hide Granted, Initial, Hopeless, Provision.LeftBehind;
    if Hopeless(s.sessions[0].opts, s) {
      assert SameServer(s, Granted(s, n));
    } else {
      var mid := Granted(s, n);
      var more := CloseGranted(mid);
      GrantedMore(s, n, more);
      LeavesBehind(s, mid, Granted(mid, more));
      assert Alone(Granted(s, n + more));
    }
  }

  // ------------------------------------------------------------------------
  // After a failure
  // ------------------------------------------------------------------------

  /** A session that has begun to open and is not yet open. */
  predicate Opening(x: Session) {
    x.phase.AdminOpen? || Creating(x) || x.phase.Bootstrapped? || x.phase.DataOpen?
  }

  /** The next call of the session fails, and with it the open. */
  ghost predicate FailsTo(s: State, b: State)
    requires Alone(s)
  {
    && Next(s, 0, false) == Some(b) && Alone(b)
    && !(s.sessions[0].phase.AdminOpen? && s.sessions[0].opts.disableCreateInstance)
  }

  lemma FailureBegins(s: State, b: State)
    requires Alone(s) && Opening(s.sessions[0]) && FailsTo(s, b)
    ensures var x := s.sessions[0];
      b.sessions == [x.(phase := if x.createdInstance then WaitDelete(false)
                                 else if x.created then WaitDrop(1, false) else Over)]
  {
    hide TargetOf, CreateKey;
  }

  lemma NoPermitLeft(s: State)
    requires Alone(s) && LockInv(s) && !InFlight(s.sessions[0])
    ensures LockFree(s)
  {
    hide KeyOf, DropKey, TargetOf;
  }

  /** What a granted deletion or drop leaves is what there was before the session. */
  lemma NothingLeft(first: State, b: State, end: State)
    requires Initial(first) && LoneOk(first, b, false)
    requires if b.sessions[0].phase.WaitDelete? then b.sessions[0].createdInstance && DeletedBy(b, end)
             else if b.sessions[0].phase.WaitDrop? then
               !b.sessions[0].createdInstance && b.sessions[0].created && DroppedBy(b, end)
             else end == b && !b.sessions[0].createdInstance && !b.sessions[0].created
    requires !b.sessions[0].dropped && !b.sessions[0].instanceGone
    ensures SameServer(first, end)
  {
    hide TargetOf, PathOk, CreatedOrFound;
    var x, d := b.sessions[0], b.sessions[0].Target();
    assert d.instance !in first.instances ==> forall e :: e in first.databases ==> e.instance != d.instance;
    assert end.instances.Keys == first.instances.Keys;
    assert end.databases.Keys == first.databases.Keys;
  }

  lemma NoSteps(s: State)
    requires Alone(s)
    ensures Granted(s, 0) == s
  {
  }

  lemma OwnedInstanceIsThere(first: State, b: State)
    requires LoneOk(first, b, false) && b.sessions[0].createdInstance && !b.sessions[0].instanceGone
    ensures b.sessions[0].Target().instance in b.instances
  {
    hide TargetOf, PathOk, PhaseOk, CreatedOrFound;
  }

  /** Wherever in a run the open of a session alone fails: if its rollback is granted every
      call, the server is as before. */
  lemma FailedOpenRollsBack(run: seq<State>, k: nat)
    requires IsRun(run) && k < |run| && Alone(run[0]) && Alone(run[k])
    requires Opening(run[k].sessions[0]) && Next(run[k], 0, false).Some?
    requires !(run[k].sessions[0].phase.AdminOpen? && run[k].sessions[0].opts.disableCreateInstance)
    ensures Alone(Next(run[k], 0, false).value)
    ensures exists n: nat ::
      var end := Granted(Next(run[k], 0, false).value, n);
      Alone(end) && end.sessions[0].phase.Over? && SameServer(run[0], end)
  {
    var s, first := run[k], run[0];
    RunKeepsLone(run, k);
    RunKeepsLock(run, k);
    var b := Next(s, 0, false).value;
    assert PathOk(s.sessions[0], Succeeded(run, k)) && PhaseOk(s.sessions[0]);
    assert !Succeeded(run, k);
    LoneStep(first, s, false, false);
    LockStep(s, 0, false);
    FailureBegins(s, b);
    assert !b.sessions[0].dropped && !b.sessions[0].instanceGone;
    NoPermitLeft(b);
    hide Next, LoneOk, LockInv, IsRun, Initial, TargetOf, Granted;
    if b.sessions[0].phase.WaitDelete? {
      OwnedInstanceIsThere(first, b);
      DeleteGranted(b);
      NothingLeft(first, b, Granted(b, 2));
    } else if b.sessions[0].phase.WaitDrop? {
      DropGranted(b);
      NothingLeft(first, b, Granted(b, 2));
    } else {
      NothingLeft(first, b, b);
      assert Granted(b, 0) == b by {
        NoSteps(b);
      }
    }
  }

  // ------------------------------------------------------------------------
  // Retries
  // ------------------------------------------------------------------------

  /** The state after steps of the only session with these outcomes. */
  function Outcomes(s: State, oks: seq<bool>): State
    requires Alone(s)
    decreases |oks|
  {
    if oks == [] then s
    else
      match Next(s, 0, oks[0])
      case Some(b) => if Alone(b) then Outcomes(b, oks[1..]) else b
      case None => s
  }

  lemma OneOutcome(s: State, b: State, ok: bool, oks: seq<bool>)
    requires Alone(s) && Alone(b) && Next(s, 0, ok) == Some(b)
    ensures Outcomes(s, [ok] + oks) == Outcomes(b, oks)
  {
    assert ([ok] + oks)[1..] == oks;
  }

  /** The session waits for this attempt, with the server as it was and its lock free. */
  ghost predicate Waits(s: State, b: State, attempt: nat, closing: bool)
    requires Alone(s)
  {
    && b.sessions == [s.sessions[0].(phase := WaitDrop(attempt, closing))]
    && b.instances == s.instances && b.databases == s.databases && LockFree(b)
  }

  lemma Acquired(s: State)
    requires Alone(s) && s.sessions[0].phase.WaitDrop? && LockFree(s)
    ensures var x, key := s.sessions[0], DropKey(s.sessions[0].Target());
      && Next(s, 0, true).Some?
      && var b := Next(s, 0, true).value;
         && b.sessions == [x.(phase := InDrop(x.phase.attempt, x.phase.closing))]
         && b.instances == s.instances && b.databases == s.databases && b.held == s.held[key := 0]
  {
    hide TargetOf, DropKey, OwnDatabase;
  }

  /** The RPC fails: the permit is given back, and the session waits or gives up. */
  lemma RpcFails(s: State)
    requires Alone(s) && s.sessions[0].phase.InDrop?
    ensures var x := s.sessions[0];
      && Next(s, 0, false).Some?
      && var b := Next(s, 0, false).value;
         && b.sessions == [x.(phase := if x.phase.attempt >= 3 then Over
                                       else Backoff(x.phase.attempt, x.phase.closing))]
         && b.instances == s.instances && b.databases == s.databases && DropKey(x.Target()) !in b.held
  {
    hide TargetOf, DropKey;
  }

  lemma WaitIsOver(s: State)
    requires Alone(s) && s.sessions[0].phase.Backoff?
    ensures var x := s.sessions[0];
      Next(s, 0, true).Some?
      && OnlySessionMoved(s, Next(s, 0, true).value, x.(phase := WaitDrop(x.phase.attempt + 1, x.phase.closing)))
  {
    hide TargetOf;
  }

  /** One failed attempt, and its wait. */
  lemma AttemptFails(s: State)
    requires Alone(s) && s.sessions[0].phase.WaitDrop? && s.sessions[0].phase.attempt < 3 && LockFree(s)
    ensures Waits(s, Outcomes(s, [true, false, true]), s.sessions[0].phase.attempt + 1, s.sessions[0].phase.closing)
  {
    hide TargetOf, DropKey, Next;
    Acquired(s);
    var b := Next(s, 0, true).value;
    RpcFails(b);
    var c := Next(b, 0, false).value;
    WaitIsOver(c);
    var end := Next(c, 0, true).value;
    OneOutcome(s, b, true, [false, true]);
    OneOutcome(b, c, false, [true]);
    OneOutcome(c, end, true, []);
    assert [true] + [false, true] == [true, false, true] && [false] + [true] == [false, true];
    assert [true] + [] == [true];
  }

  lemma LastAttemptFails(s: State)
    requires Alone(s) && s.sessions[0].phase.WaitDrop? && s.sessions[0].phase.attempt == 3 && LockFree(s)
    ensures var x, end := s.sessions[0], Outcomes(s, [true, false]);
      end.sessions == [x.(phase := Over)] && end.instances == s.instances && end.databases == s.databases
  {
    hide TargetOf, DropKey, Next;
    Acquired(s);
    var b := Next(s, 0, true).value;
    RpcFails(b);
    var end := Next(b, 0, false).value;
    OneOutcome(s, b, true, [false]);
    OneOutcome(b, end, false, []);
    assert [true] + [false] == [true, false] && [false] + [] == [false];
  }

  /** A drop is tried three times: after two failed attempts the third one still drops the
      database, and if it fails too the session is over with the database left. */
  lemma ThreeAttempts(s: State)
    requires Alone(s) && s.sessions[0].phase.WaitDrop? && s.sessions[0].phase.attempt == 1 && LockFree(s)
    ensures Alone(Outcomes(s, [true, false, true]))
    ensures var second := Outcomes(s, [true, false, true]);
      && Alone(Outcomes(second, [true, false, true]))
      && var third := Outcomes(second, [true, false, true]);
         && DroppedBy(third, Granted(third, 2))
         && Outcomes(third, [true, false]).sessions == [s.sessions[0].(phase := Over)]
         && Granted(third, 2).databases == s.databases - {s.sessions[0].Target()}
         && Outcomes(third, [true, false]).databases == s.databases
  {
    AttemptFails(s);
    var second := Outcomes(s, [true, false, true]);
    AttemptFails(second);
    var third := Outcomes(second, [true, false, true]);
    hide Outcomes, Granted, TargetOf;
    DropGranted(third);
    LastAttemptFails(third);
  }

  lemma DeletionStep(s: State)
    requires Alone(s) && s.sessions[0].phase == WaitDelete(false)
    ensures Next(s, 0, true).Some?
    ensures OnlySessionMoved(s, Next(s, 0, true).value, s.sessions[0].(phase := InDelete(false)))
  {
    hide TargetOf, OwnInstance;
  }

  lemma DeletionRefused(s: State)
    requires Alone(s) && s.sessions[0].phase == InDelete(false) && s.sessions[0].created
    ensures Next(s, 0, false).Some?
    ensures OnlySessionMoved(s, Next(s, 0, false).value, s.sessions[0].(phase := CheckInstance))
  {
    hide TargetOf, Inhabitants, Others;
  }

  lemma InstanceStillExists(s: State)
    requires Alone(s) && s.sessions[0].phase == CheckInstance && s.sessions[0].Target().instance in s.instances
    ensures Next(s, 0, true).Some?
    ensures OnlySessionMoved(s, Next(s, 0, true).value, s.sessions[0].(phase := WaitDrop(1, false)))
  {
    hide TargetOf;
  }

  lemma DeletionFails(s: State)
    requires Alone(s) && s.sessions[0].phase == WaitDelete(false) && s.sessions[0].created
    requires s.sessions[0].Target().instance in s.instances
    ensures OnlySessionMoved(s, Outcomes(s, [true, false, true]), s.sessions[0].(phase := WaitDrop(1, false)))
  {
    hide TargetOf, Next;
    DeletionStep(s);
    var b := Next(s, 0, true).value;
    DeletionRefused(b);
    var c := Next(b, 0, false).value;
    InstanceStillExists(c);
    var end := Next(c, 0, true).value;
    OneOutcome(s, b, true, [false, true]);
    OneOutcome(b, c, false, [true]);
    OneOutcome(c, end, true, []);
    assert [true] + [false, true] == [true, false, true] && [false] + [true] == [false, true];
    assert [true] + [] == [true];
  }

  /** A rollback that cannot delete its instance, but finds it still there, drops its
      database instead. */
  lemma DropsInstead(s: State)
    requires Alone(s) && s.sessions[0].phase == WaitDelete(false) && s.sessions[0].created
    requires s.sessions[0].Target().instance in s.instances && LockFree(s)
    ensures var checked := Outcomes(s, [true, false, true]);
      Alone(checked) && DroppedBy(checked, Granted(checked, 2))
      && Granted(checked, 2).instances == s.instances
      && Granted(checked, 2).databases == s.databases - {s.sessions[0].Target()}
  {
    DeletionFails(s);
    hide Outcomes, Granted, TargetOf;
    DropGranted(Outcomes(s, [true, false, true]));
  }
}
