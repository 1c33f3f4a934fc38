/** Stopping a serve process: SIGTERM, a poll loop, SIGKILL, a second poll loop, and the
    clean-up of its files (stop.go). Time is in nanoseconds, and the clock may move
    between any two readings.

    Host stands for the operating system. Around every call the process may die, the
    files may come and go, and time may pass; signal 0 fails only on a dead process,
    and a process does not come back to life. */
module Stop {
  import opened Common
  import opened Ids

  const MILLISECOND: nat := 1000000
  const SECOND: nat := 1000 * MILLISECOND
  const DEFAULT_STOP_TIMEOUT: nat := 30 * SECOND
  const POLL_INTERVAL: nat := 100 * MILLISECOND
  const CLEANUP_POLL_INTERVAL: nat := 50 * MILLISECOND
  const CLEANUP_TIMEOUT: nat := SECOND

  datatype StopConfig = StopConfig(endpointFile: string, pidFile: string, timeout: int)

  datatype SignalResult = Sent | ProcessDone | SignalError

  /** What was asked of the system, with its answer. */
  datatype Event =
    | FindProcess(found: bool)
    | Terminate(at: nat, pid: int, result: SignalResult)
    | Poll(at: nat, answered: bool)
    | Kill(at: nat, pid: int, result: SignalResult)
    | RemovePIDFile
    | LookForEndpoint(notExist: bool)
    | RemoveEndpointFile(ok: bool)

  datatype PIDError = PIDFileUnreadable | PIDInvalid | EndpointUnreadable | EndpointHasNoPID | NoFileGiven

  datatype StopError =
    | NoPID(reason: PIDError)
    | FindProcessFailed
    | TerminateFailed
    | KillFailed
    | Cancelled
    | StillRunning
    | RemoveEndpointFailed

  class Host {
    var now: nat
    var alive: bool
    var endpointPresent: bool
    var pidPresent: bool
    // ctx.Done() is closed
    var ctxDone: bool
    ghost var log: seq<Event>
    // the timers that were set
    ghost var timers: seq<nat>

    /** At least this much time passes, and the world goes on. */
    method Pass(duration: nat)
      modifies this`now, this`alive, this`endpointPresent, this`pidPresent, this`ctxDone
      ensures now >= old(now) + duration
      ensures alive ==> old(alive)
      ensures old(ctxDone) ==> ctxDone
    {
      var spent :| duration <= spent;
      now := now + spent;
      var survives: bool := *;
      alive := alive && survives;
      endpointPresent := *;
      pidPresent := *;
      var done: bool := *;
      ctxDone := ctxDone || done;
    }

    /** time.Now */
    method ReadClock() returns (t: nat)
      modifies this`now, this`alive, this`endpointPresent, this`pidPresent, this`ctxDone
      ensures old(now) <= t == now
      ensures alive ==> old(alive)
      ensures old(ctxDone) ==> ctxDone
    {
      Pass(0);
      t := now;
    }

    /** The select between the end of the context and a timer. */
    method AwaitTimer(duration: nat) returns (cancelled: bool)
      modifies this`now, this`alive, this`endpointPresent, this`pidPresent, this`ctxDone, this`timers
      ensures now >= old(now) && (alive ==> old(alive)) && (old(ctxDone) ==> ctxDone)
      ensures timers == old(timers) + [duration]
      ensures if cancelled then ctxDone else now >= old(now) + duration
    {
      timers := timers + [duration];
      Pass(0);
      cancelled := *;
      if !ctxDone || !cancelled {
        cancelled := false;
        Pass(duration);
      }
    }

    /** The same for a context that ends at a deadline. */
    method AwaitTimerUntil(ctxDeadline: nat, duration: nat) returns (cancelled: bool)
      modifies this`now, this`alive, this`endpointPresent, this`pidPresent, this`ctxDone, this`timers
      ensures now >= old(now) && (alive ==> old(alive)) && (old(ctxDone) ==> ctxDone)
      ensures timers == old(timers) + [duration]
      ensures if cancelled then now >= ctxDeadline else now >= old(now) + duration
    {
      timers := timers + [duration];
      Pass(0);
      cancelled := *;
      if now < ctxDeadline || !cancelled {
        cancelled := false;
        Pass(duration);
      }
    }

    /** os.FindProcess */
    method FindProcess(pid: int) returns (found: bool)
      modifies this`now, this`alive, this`endpointPresent, this`pidPresent, this`ctxDone, this`log
      ensures now >= old(now) && (alive ==> old(alive)) && (old(ctxDone) ==> ctxDone)
      ensures log == old(log) + [Event.FindProcess(found)]
    {
      Pass(0);
      found := *;
      log := log + [Event.FindProcess(found)];
    }

    method SignalTerm(pid: int) returns (r: SignalResult)
      modifies this`now, this`alive, this`endpointPresent, this`pidPresent, this`ctxDone, this`log
      ensures now >= old(now) && (alive ==> old(alive)) && (old(ctxDone) ==> ctxDone)
      ensures r == ProcessDone ==> !alive
      ensures log == old(log) + [Terminate(now, pid, r)]
    {
      Pass(0);
      r := *;
      if r == ProcessDone && alive {
        r := Sent;
      }
      log := log + [Terminate(now, pid, r)];
    }

    /** Signal 0. */
    method SignalZero() returns (failed: bool)
      modifies this`now, this`alive, this`endpointPresent, this`pidPresent, this`ctxDone, this`log
      ensures now >= old(now) && (alive ==> old(alive)) && (old(ctxDone) ==> ctxDone)
      ensures failed ==> !alive
      ensures log == old(log) + [Poll(now, !failed)]
    {
      Pass(0);
      failed := *;
      failed := failed && !alive;
      log := log + [Poll(now, !failed)];
    }

    method SignalKill(pid: int) returns (r: SignalResult)
      modifies this`now, this`alive, this`endpointPresent, this`pidPresent, this`ctxDone, this`log
      ensures now >= old(now) && (alive ==> old(alive)) && (old(ctxDone) ==> ctxDone)
      ensures r == ProcessDone ==> !alive
      ensures log == old(log) + [Kill(old(now), pid, r)]
    {
      ghost var at := now;
      Pass(0);
      r := *;
      if r == ProcessDone && alive {
        r := Sent;
      }
      log := log + [Kill(at, pid, r)];
    }

    method RemovePID()
      modifies this`now, this`alive, this`endpointPresent, this`pidPresent, this`ctxDone, this`log
      ensures now >= old(now) && (alive ==> old(alive)) && (old(ctxDone) ==> ctxDone)
      ensures log == old(log) + [RemovePIDFile]
    {
      Pass(0);
      var ok: bool := *;
      if ok {
        pidPresent := false;
      }
      log := log + [RemovePIDFile];
    }

    /** os.Stat says that the file does not exist only when it does not. */
    method StatEndpoint() returns (notExist: bool)
      modifies this`now, this`alive, this`endpointPresent, this`pidPresent, this`ctxDone, this`log
      ensures now >= old(now) && (alive ==> old(alive)) && (old(ctxDone) ==> ctxDone)
      ensures log == old(log) + [LookForEndpoint(notExist)]
      ensures notExist ==> !endpointPresent
    {
      Pass(0);
      notExist := *;
      notExist := notExist && !endpointPresent;
      log := log + [LookForEndpoint(notExist)];
    }

    /** os.Remove, with "does not exist" counted as success. */
    method RemoveEndpoint() returns (ok: bool)
      modifies this`now, this`alive, this`endpointPresent, this`pidPresent, this`ctxDone, this`log
      ensures now >= old(now) && (alive ==> old(alive)) && (old(ctxDone) ==> ctxDone)
      ensures ok ==> !endpointPresent
      ensures log == old(log) + [RemoveEndpointFile(ok)]
    {
      Pass(0);
      ok := *;
      if ok {
        endpointPresent := false;
      }
      log := log + [RemoveEndpointFile(ok)];
    }
  }

  // ------------------------------------------------------------------------
  // Which process
  // ------------------------------------------------------------------------

  /** A configured path counts when it is not blank. */
  predicate Given(path: string) {
    !Blank(path)
  }

  /** resolveServePID: pidFile and endpointPID are what reading the two files yields;
      None inside stands for text that is no number. */
  function ResolveServePID(cfg: StopConfig, pidFile: Option<Option<int>>, endpointPID: Option<int>)
    : Result<int, PIDError>
  {
    if Given(cfg.pidFile) then
      if pidFile.None? then Err(PIDFileUnreadable)
      else if pidFile.value.None? || pidFile.value.value <= 0 then Err(PIDInvalid)
      else Ok(pidFile.value.value)
    else if Given(cfg.endpointFile) then
      if endpointPID.None? then Err(EndpointUnreadable)
      else if endpointPID.value <= 0 then Err(EndpointHasNoPID)
      else Ok(endpointPID.value)
    else Err(NoFileGiven)
  }

  /** A process is signalled only under a positive ID (kill(0) and negative IDs address
      process groups), and the PID file, when given, decides alone. */
  lemma ResolvedPIDIsPositive(cfg: StopConfig, pidFile: Option<Option<int>>, endpointPID: Option<int>)
    ensures var r := ResolveServePID(cfg, pidFile, endpointPID);
      && (r.Ok? ==> r.value > 0 && (Given(cfg.pidFile) || Given(cfg.endpointFile)))
      && (Given(cfg.pidFile) ==> forall other :: ResolveServePID(cfg, pidFile, other) == r)
      && (Given(cfg.pidFile) ==>
            forall n :: r == Ok(n) <==> pidFile == Some(Some(n)) && n > 0)
      && (Given(cfg.endpointFile) && !Given(cfg.pidFile) ==>
            forall n :: r == Ok(n) <==> endpointPID == Some(n) && n > 0)
      && (r == Err(NoFileGiven) <==> Blank(cfg.pidFile) && Blank(cfg.endpointFile))
  {
  }

  // ------------------------------------------------------------------------
  // Clean-up
  // ------------------------------------------------------------------------

  predicate IsCleanUp(e: Event) {
    e.RemovePIDFile? || e.LookForEndpoint? || e.RemoveEndpointFile?
  }

  /** What a clean-up does about the endpoint file: it looks until the file is gone, or
      removes it, and the error is that of the removal. */
  ghost predicate RetiresEndpoint(events: seq<Event>, err: Option<StopError>) {
    && events != []
    && (forall k :: 0 <= k < |events| - 1 ==> events[k] == LookForEndpoint(false))
    && match events[|events| - 1]
       case LookForEndpoint(notExist) => notExist && err == None
       case RemoveEndpointFile(ok) => err == if ok then None else Some(RemoveEndpointFailed)
       case _ => false
  }

  function PIDPart(cfg: StopConfig): seq<Event> {
    if Given(cfg.pidFile) then [RemovePIDFile] else []
  }

  /** A whole clean-up: the PID file is removed if one is configured, whether that works or
      not, and then the endpoint file is retired if one is configured. */
  ghost predicate CleanedUp(cfg: StopConfig, events: seq<Event>, err: Option<StopError>) {
    var n := |PIDPart(cfg)|;
    && |events| >= n && events[..n] == PIDPart(cfg)
    && if Given(cfg.endpointFile) then RetiresEndpoint(events[n..], err) else |events| == n && err == None
  }

  /** The clean-up ended in removing the endpoint file. */
  predicate Forced(events: seq<Event>) {
    events != [] && events[|events| - 1].RemoveEndpointFile?
  }

  function Earliest(a: nat, b: nat, c: nat): nat {
    if a <= b && a <= c then a else if b <= c then b else c
  }

  /** n timers of this duration, one after the other. */
  ghost function Ticks(duration: nat, n: nat): seq<nat> {
    seq(n, _ => duration)
  }

  /** waitForEndpointCleanup, from its second half on: the endpoint file. Between two looks
      there is one interval, and none is made exactly if the clock has reached the limit by
      the first test. */
  method RetireEndpoint(host: Host, ctxDeadline: nat, deadline: nat)
    returns (err: Option<StopError>, ghost events: seq<Event>, ghost first: nat, ghost limit: nat)
    modifies host
    ensures (host.alive ==> old(host.alive)) && (old(host.ctxDone) ==> host.ctxDone) && host.now >= old(host.now)
    ensures host.log == old(host.log) + events && RetiresEndpoint(events, err)
    ensures Forced(events) ==> host.now >= Earliest(ctxDeadline, deadline, old(host.now) + CLEANUP_TIMEOUT)
    ensures err == None ==> !host.endpointPresent
    ensures events[0].LookForEndpoint? <==> first < limit
    ensures old(host.now) <= first <= host.now && limit >= (if old(host.now) + CLEANUP_TIMEOUT <= deadline then
              old(host.now) + CLEANUP_TIMEOUT else deadline)
    ensures host.timers == old(host.timers) + Ticks(CLEANUP_POLL_INTERVAL, |events| - 1)
  {
    events := [];
    var clock := host.ReadClock();
    var cleanupDeadline := clock + CLEANUP_TIMEOUT;
    if cleanupDeadline > deadline {
      cleanupDeadline := deadline;
    }
    clock := host.ReadClock();
    first, limit := clock, cleanupDeadline;
    while clock < cleanupDeadline
      invariant clock <= host.now && (host.alive ==> old(host.alive)) && (old(host.ctxDone) ==> host.ctxDone)
      invariant host.now >= old(host.now) && host.log == old(host.log) + events && first <= host.now
      invariant forall k :: 0 <= k < |events| ==> events[k] == LookForEndpoint(false)
      invariant if events == [] then clock == first else first < limit
      invariant host.timers == old(host.timers) + Ticks(CLEANUP_POLL_INTERVAL, |events|)
      decreases cleanupDeadline - clock
    {
      var gone := host.StatEndpoint();
      events := events + [LookForEndpoint(gone)];
      if gone {
        return None, events, first, limit;
      }
      var done := host.AwaitTimerUntil(ctxDeadline, CLEANUP_POLL_INTERVAL);
      if done {
        break;
      }
      clock := host.ReadClock();
    }
    var ok := host.RemoveEndpoint();
    return if ok then None else Some(RemoveEndpointFailed), events + [RemoveEndpointFile(ok)], first, limit;
  }

  /** waitForEndpointCleanup, under a context that ends at ctxDeadline. The endpoint file
      is removed by force only when the serve process had its time to remove it and every
      look found the file. */
  method WaitForEndpointCleanup(host: Host, ctxDeadline: nat, cfg: StopConfig, deadline: nat)
    returns (err: Option<StopError>, ghost events: seq<Event>)
    modifies host
    ensures (host.alive ==> old(host.alive)) && (old(host.ctxDone) ==> host.ctxDone) && host.now >= old(host.now)
    ensures host.log == old(host.log) + events && CleanedUp(cfg, events, err)
    ensures Forced(events) ==> host.now >= Earliest(ctxDeadline, deadline, old(host.now) + CLEANUP_TIMEOUT)
    ensures err == None && Given(cfg.endpointFile) ==> !host.endpointPresent
  {
    hide RetiresEndpoint, Given;
    events := PIDPart(cfg);
    if Given(cfg.pidFile) {
      host.RemovePID();
    }
    if !Given(cfg.endpointFile) {
      return None, events;
    }
    ghost var retiring, first, limit;
    err, retiring, first, limit := RetireEndpoint(host, ctxDeadline, deadline);
    events := events + retiring;
    assert events[|PIDPart(cfg)|..] == retiring;
  }

  method FinishStopCleanup(host: Host, cfg: StopConfig) returns (err: Option<StopError>, ghost events: seq<Event>)
    modifies host
    ensures (host.alive ==> old(host.alive)) && (old(host.ctxDone) ==> host.ctxDone) && host.now >= old(host.now)
    ensures host.log == old(host.log) + events && CleanedUp(cfg, events, err)
    ensures Forced(events) ==> host.now >= old(host.now) + CLEANUP_TIMEOUT
    ensures err == None && Given(cfg.endpointFile) ==> !host.endpointPresent
  {
    var started := host.ReadClock();
    var clock := host.ReadClock();
    err, events := WaitForEndpointCleanup(host, started + SECOND, cfg, clock + SECOND);
  }

  // ------------------------------------------------------------------------
  // The poll loop
  // ------------------------------------------------------------------------

  datatype PollOutcome = Dead | ContextDone | TimedOut

  /** Polls of one loop: all answered, except possibly the last, which saw the process
      dead. */
  predicate PollsOk(polls: seq<Event>, sawDead: bool, timeout: nat) {
    && |polls| <= timeout / POLL_INTERVAL + 1
    && (sawDead ==> polls != [] && polls[|polls| - 1].Poll? && !polls[|polls| - 1].answered)
    && forall k :: 0 <= k < |polls| ==> polls[k].Poll? && (polls[k].answered || (sawDead && k == |polls| - 1))
  }

  /** One of the two loops of StopFromConfig: poll until the process is gone, the
      context ends, or the timeout is over. The number of polls is bounded, all but the
      one that finds the process dead were answered, and a timeout is a full one. There
      is no poll at all exactly if the clock has reached the deadline by the first test:
      begin is the reading that sets the deadline, first the one that is tested. Every
      answered poll is followed by one interval of waiting. */
  method PollUntilGone(host: Host, timeout: nat)
    returns (outcome: PollOutcome, ghost polls: seq<Event>, ghost begin: nat, ghost first: nat)
    modifies host
    ensures host.alive ==> old(host.alive)
    ensures host.log == old(host.log) + polls
    ensures PollsOk(polls, outcome == Dead, timeout)
    ensures outcome == Dead ==> !host.alive
    ensures (old(host.ctxDone) ==> host.ctxDone) && (outcome == ContextDone ==> host.ctxDone)
    ensures outcome == TimedOut ==> host.now >= begin + timeout
    ensures old(host.now) <= begin <= first <= host.now
    ensures polls == [] <==> first >= begin + timeout
    ensures host.timers == old(host.timers) + Ticks(POLL_INTERVAL, |polls| - if outcome == Dead then 1 else 0)
  {
    var clock := host.ReadClock();
    begin := clock;
    var deadline := clock + timeout;
    polls := [];
    clock := host.ReadClock();
    first := clock;
    while clock < deadline
      invariant first <= clock <= host.now && (host.alive ==> old(host.alive)) && (old(host.ctxDone) ==> host.ctxDone)
      invariant host.log == old(host.log) + polls
      invariant clock >= begin + |polls| * POLL_INTERVAL
      invariant |polls| * POLL_INTERVAL <= timeout + POLL_INTERVAL - 1
      invariant if polls == [] then clock == first else first < deadline
      invariant host.timers == old(host.timers) + Ticks(POLL_INTERVAL, |polls|)
      invariant forall k :: 0 <= k < |polls| ==> polls[k].Poll? && polls[k].answered
      decreases deadline - clock
    {
      var failed := host.SignalZero();
      polls := polls + [Poll(host.now, !failed)];
      if failed {
        return Dead, polls, begin, first;
      }
      var cancelled := host.AwaitTimer(POLL_INTERVAL);
      if cancelled {
        return ContextDone, polls, begin, first;
      }
      clock := host.ReadClock();
    }
    return TimedOut, polls, begin, first;
  }

  // ------------------------------------------------------------------------
  // The whole protocol
  // ------------------------------------------------------------------------

  function EffectiveTimeout(cfg: StopConfig): (t: nat)
    ensures t > 0
    ensures t == cfg.timeout || (cfg.timeout <= 0 && t == 30 * SECOND)
  {
    if cfg.timeout <= 0 then DEFAULT_STOP_TIMEOUT else cfg.timeout
  }

  lemma NoPolls(timeout: nat)
    ensures PollsOk([], false, timeout)
  {
  }

  /** What follows the first poll loop. */
  datatype LastPhase = LastPhase(kill: seq<Event>, killPolls: seq<Event>, sawDead: bool, cleanUp: seq<Event>)

  /** What one stop does to the outside world, phase by phase, and whether each poll
      loop saw the process dead. */
  datatype Trace = Trace(find: seq<Event>, terminate: seq<Event>, polls: seq<Event>, sawDead: bool, last: LastPhase)

  function FlatLast(t: LastPhase): seq<Event> {
    t.kill + t.killPolls + t.cleanUp
  }

  function Flat(t: Trace): seq<Event> {
    t.find + t.terminate + t.polls + FlatLast(t.last)
  }

  /** At most one SIGKILL, not before the given time; polls only after it was sent; then the
      clean-up. */
  ghost predicate LastPhaseOk(t: LastPhase, pid: int, timeout: nat, earliestKill: nat) {
    && |t.kill| <= 1
    && (t.kill != [] ==> t.kill[0].Kill? && t.kill[0].pid == pid && t.kill[0].at >= earliestKill)
    && (t.kill == [] || t.kill[0].result != Sent ==> t.killPolls == [])
    && PollsOk(t.killPolls, t.sawDead, timeout)
    && forall k :: 0 <= k < |t.cleanUp| ==> IsCleanUp(t.cleanUp[k])
  }

  /** The order of the protocol: one SIGTERM; polls, if it was sent; a SIGKILL only if the
      first loop never saw the process dead and lasted the whole timeout; more polls; the
      clean-up. */
  ghost predicate TraceOk(t: Trace, pid: int, timeout: nat) {
    && |t.find| == |t.terminate| == 1
    && t.find[0] == Event.FindProcess(true)
    && t.terminate[0].Terminate? && t.terminate[0].pid == pid
    && PollsOk(t.polls, t.sawDead, timeout)
    && LastPhaseOk(t.last, pid, timeout, t.terminate[0].at + timeout)
    && (t.terminate[0].result != Sent ==> t.polls == [])
    && (t.last.kill != [] ==> t.terminate[0].result == Sent && !t.sawDead)
  }

  const NO_LAST_PHASE := LastPhase([], [], false, [])
  const NO_TRACE := Trace([], [], [], false, NO_LAST_PHASE)

  lemma CleanUpEvents(cfg: StopConfig, events: seq<Event>, err: Option<StopError>)
    requires CleanedUp(cfg, events, err)
    ensures forall k :: 0 <= k < |events| ==> IsCleanUp(events[k])
  {
    var n := |PIDPart(cfg)|;
    forall k | 0 <= k < |events| ensures IsCleanUp(events[k]) {
      if k < n {
        assert events[k] == events[..n][k];
      } else {
        assert events[k] == events[n..][k - n];
      }
    }
  }

  lemma CleanUpErrors(cfg: StopConfig, events: seq<Event>, err: Option<StopError>)
    ensures CleanedUp(cfg, events, err) ==> err == None || err == Some(RemoveEndpointFailed)
  {
  }

  /** The last phase itself found the process dead. */
  predicate KilledDead(t: LastPhase) {
    t.sawDead || (t.kill != [] && t.kill[0].Kill? && t.kill[0].result == ProcessDone)
  }

  /** The outcome of the last phase, where wasDead tells whether the process was found dead
      before it. A process found dead is cleaned up after, and the error is that of the
      clean-up; otherwise no file is touched, and the error says which call failed, that
      the context has ended, or that the process has outlived the whole timeout after
      SIGKILL was sent. */
  ghost predicate Concludes(err: Option<StopError>, cfg: StopConfig, host: Host, wasDead: bool, t: LastPhase,
                            timeout: nat)
    reads host
  {
    if wasDead || KilledDead(t) then
      CleanedUp(cfg, t.cleanUp, err) && !host.alive
      && (err == None && Given(cfg.endpointFile) ==> !host.endpointPresent)
    else
      && t.cleanUp == []
      && match err
         case Some(KillFailed) => t.kill != [] && t.kill[0].Kill? && t.kill[0].result == SignalError
         case Some(Cancelled) => host.ctxDone
         case Some(StillRunning) =>
           t.kill != [] && t.kill[0].Kill? && t.kill[0].result == Sent && host.now >= t.kill[0].at + timeout
         case _ => false
  }

  /** StopFromConfig, once the graceful timeout is over. */
  method KillAndWait(host: Host, cfg: StopConfig, pid: int, timeout: nat)
    returns (err: Option<StopError>, ghost last: LastPhase)
    modifies host
    ensures host.log == old(host.log) + FlatLast(last)
    ensures LastPhaseOk(last, pid, timeout, old(host.now)) && last.kill != []
    ensures Concludes(err, cfg, host, false, last, timeout)
    ensures err == Some(StillRunning) ==> host.now >= old(host.now) + timeout
    ensures err == Some(Cancelled) ==> last.kill[0].result == Sent
  {
    NoPolls(timeout);
    hide PollsOk, CleanedUp, Given, Forced;
    ghost var at, polls, sawDead, cleanUp := host.now, [], false, [];
    var killed := host.SignalKill(pid);
    var dead := killed == ProcessDone;
    err := if killed == SignalError then Some(KillFailed) else None;
    if killed == Sent {
      var outcome;
      ghost var begin, first;
      outcome, polls, begin, first := PollUntilGone(host, timeout);
      dead := outcome == Dead;
      sawDead := dead;
      err := match outcome case Dead => None case ContextDone => Some(Cancelled) case TimedOut => Some(StillRunning);
    }
    assert host.log == old(host.log) + [Kill(at, pid, killed)] + polls;
    if dead {
      err, cleanUp := FinishStopCleanup(host, cfg);
      CleanUpEvents(cfg, cleanUp, err);
      CleanUpErrors(cfg, cleanUp, err);
    }
    last := LastPhase([Kill(at, pid, killed)], polls, sawDead, cleanUp);
  }

  /** StopFromConfig, once SIGTERM was sent: wait for the process to go, kill it if it
      does not, and clean up. */
  method WaitThenKill(host: Host, cfg: StopConfig, pid: int, timeout: nat)
    returns (err: Option<StopError>, ghost polls: seq<Event>, ghost sawDead: bool, ghost last: LastPhase)
    modifies host
    ensures host.log == old(host.log) + polls + FlatLast(last)
    ensures PollsOk(polls, sawDead, timeout)
    ensures LastPhaseOk(last, pid, timeout, old(host.now) + timeout)
    ensures last.kill != [] ==> !sawDead
    ensures Concludes(err, cfg, host, sawDead, last, timeout)
  {
    NoPolls(timeout);
    hide PollsOk, CleanedUp;
    var outcome;
    ghost var begin, first;
    outcome, polls, begin, first := PollUntilGone(host, timeout);
    sawDead, last := outcome == Dead, NO_LAST_PHASE;
    match outcome
    case Dead =>
      ghost var cleanUp;
      err, cleanUp := FinishStopCleanup(host, cfg);
      CleanUpEvents(cfg, cleanUp, err);
      last := NO_LAST_PHASE.(cleanUp := cleanUp);
    case ContextDone => err := Some(Cancelled);
    case TimedOut => err, last := KillAndWait(host, cfg, pid, timeout);
  }

  /** How a whole stop concludes: a failed SIGTERM ends it; a process that is gone already is
      cleaned up after; otherwise it is up to what follows. */
  ghost predicate Verdict(err: Option<StopError>, cfg: StopConfig, host: Host, t: Trace, timeout: nat)
    requires t.terminate != [] && t.terminate[0].Terminate?
    reads host
  {
    match t.terminate[0].result
    case SignalError => err == Some(TerminateFailed) && t.last == NO_LAST_PHASE
    case ProcessDone => t.last.kill == [] && Concludes(err, cfg, host, true, t.last, timeout)
    case Sent => Concludes(err, cfg, host, t.sawDead, t.last, timeout)
  }

  /** StopFromConfig, once the process is known: SIGTERM, and what follows from it. */
  method StopProcess(host: Host, cfg: StopConfig, pid: int, timeout: nat)
    returns (err: Option<StopError>, ghost trace: Trace)
    modifies host
    ensures trace.find == [Event.FindProcess(true)] && trace.terminate != [] && trace.terminate[0].Terminate?
    ensures host.log == old(host.log) + Flat(trace.(find := []))
    ensures TraceOk(trace, pid, timeout) && Verdict(err, cfg, host, trace, timeout)
  {
    NoPolls(timeout);
    hide PollsOk, CleanedUp;
    var sent := host.SignalTerm(pid);
    ghost var at, polls, sawDead, last := host.now, [], false, NO_LAST_PHASE;
    match sent {
      case ProcessDone =>
        ghost var cleanUp;
        err, cleanUp := FinishStopCleanup(host, cfg);
        CleanUpEvents(cfg, cleanUp, err);
        last := NO_LAST_PHASE.(cleanUp := cleanUp);
      case SignalError => err := Some(TerminateFailed);
      case Sent => err, polls, sawDead, last := WaitThenKill(host, cfg, pid, timeout);
    }
    trace := Trace([Event.FindProcess(true)], [Terminate(at, pid, sent)], polls, sawDead, last);
    assert host.log == old(host.log) + [Terminate(at, pid, sent)] + polls + FlatLast(last);
  }

  /** What the verdict means to a caller. */
  lemma VerdictMeans(err: Option<StopError>, cfg: StopConfig, host: Host, t: Trace, timeout: nat)
    requires t.terminate != [] && t.terminate[0].Terminate? && Verdict(err, cfg, host, t, timeout)
    ensures err == None || err == Some(RemoveEndpointFailed) ==> !host.alive
    ensures err == None && Given(cfg.endpointFile) ==> !host.endpointPresent
    ensures err != None && err != Some(RemoveEndpointFailed) ==> t.last.cleanUp == []
    ensures err == Some(Cancelled) ==> host.ctxDone
    ensures err == Some(StillRunning) ==>
              t.last.kill != [] && t.last.kill[0].Kill? && host.now >= t.last.kill[0].at + timeout
    ensures err != Some(FindProcessFailed) && (err.Some? ==> !err.value.NoPID?)
  {
    CleanUpErrors(cfg, t.last.cleanUp, err);
    hide CleanedUp;
  }

  lemma StoppedNothing()
    ensures Flat(NO_TRACE) == []
    ensures forall found :: Flat(NO_TRACE.(find := [Event.FindProcess(found)])) == [Event.FindProcess(found)]
  {
  }

  lemma FoundFirst(t: Trace)
    requires t.find == [Event.FindProcess(true)]
    ensures Flat(t) == [Event.FindProcess(true)] + Flat(t.(find := []))
  {
  }

  /** StopFromConfig. A nil error means that the process was found dead and that, at
      the last look, the endpoint file was absent; any error but a failed removal means
      that no file was touched. Every error is that of a call that was made and failed, or
      the end of the context, or a process that has outlived both timeouts. Signals go to
      the process that the files name. */
  method StopFromConfig(host: Host, cfg: StopConfig, pidFile: Option<Option<int>>, endpointPID: Option<int>)
    returns (err: Option<StopError>, ghost trace: Trace)
    modifies host
    ensures host.log == old(host.log) + Flat(trace)
    ensures match ResolveServePID(cfg, pidFile, endpointPID)
            case Err(reason) => trace == NO_TRACE && err == Some(NoPID(reason))
            case Ok(pid) =>
              if err == Some(FindProcessFailed) then trace == NO_TRACE.(find := [Event.FindProcess(false)])
              else
                TraceOk(trace, pid, EffectiveTimeout(cfg)) && Verdict(err, cfg, host, trace, EffectiveTimeout(cfg))
    ensures err == None || err == Some(RemoveEndpointFailed) ==> !host.alive
    ensures err == None && Given(cfg.endpointFile) ==> !host.endpointPresent
    ensures err != None && err != Some(RemoveEndpointFailed) ==> trace.last.cleanUp == []
    ensures err == Some(Cancelled) ==> host.ctxDone
    ensures err == Some(StillRunning) ==>
              && trace.last.kill != [] && trace.last.kill[0].Kill?
              && host.now >= trace.last.kill[0].at + EffectiveTimeout(cfg)
  {
    StoppedNothing();
    hide ResolveServePID, TraceOk, Verdict, Flat, Given, EffectiveTimeout;
    var resolved := ResolveServePID(cfg, pidFile, endpointPID);
    if resolved.Err? {
      return Some(NoPID(resolved.error)), NO_TRACE;
    }
    var found := host.FindProcess(resolved.value);
    if !found {
      return Some(FindProcessFailed), NO_TRACE.(find := [Event.FindProcess(false)]);
    }
    err, trace := StopProcess(host, cfg, resolved.value, EffectiveTimeout(cfg));
    FoundFirst(trace);
    VerdictMeans(err, cfg, host, trace, EffectiveTimeout(cfg));
  }

  /** In what a stop does, SIGKILL occurs at most once, never before the whole timeout
      has passed since SIGTERM, and whatever polls lie between were all answered. */
  lemma KillOnlyAfterTimeout(t: Trace, pid: int, timeout: nat, k: nat)
    requires TraceOk(t, pid, timeout)
    requires k < |Flat(t)| && Flat(t)[k].Kill?
    ensures forall j :: 0 <= j < |Flat(t)| && Flat(t)[j].Kill? ==> j == k
    ensures k >= 2 && Flat(t)[1].Terminate? && Flat(t)[k].pid == Flat(t)[1].pid == pid
    ensures Flat(t)[k].at >= Flat(t)[1].at + timeout
    ensures forall j :: 2 <= j < k ==> Flat(t)[j].Poll? && Flat(t)[j].answered
  {
  }

  /** The files are only dealt with after the last signal and the last poll. */
  lemma CleanUpComesLast(t: Trace, pid: int, timeout: nat, k: nat, j: nat)
    requires TraceOk(t, pid, timeout)
    requires k < j < |Flat(t)| && IsCleanUp(Flat(t)[k])
    ensures IsCleanUp(Flat(t)[j])
  {
  }

  /** The number of calls to the outside world is bounded by the timeout, before the
      files are cleaned up. */
  lemma StopIsBounded(t: Trace, pid: int, timeout: nat)
    requires TraceOk(t, pid, timeout)
    ensures |Flat(t)| - |t.last.cleanUp| <= 2 * (timeout / POLL_INTERVAL + 2) + 1
  {
  }
}
