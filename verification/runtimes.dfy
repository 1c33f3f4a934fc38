/** Who owns the container: starting it, handing it over together with the clients, and
    closing through any of its owners (internal.go, omni.go, emulator.go, runtime.go,
    spanemuboost.go). */
module Runtimes {
  import opened Common
  import opened Options
  import opened Sessions
  import opened Provision

  /** A container: what matters is whether it runs and how often it was terminated. */
  class Container {
    var running: bool
    ghost var terminations: nat
    // how much of the server's log there was at the last Terminate, and how it ended
    ghost var terminatedAt: nat
    ghost var terminateFailed: bool

    constructor ()
      ensures running && terminations == 0
    {
      running, terminations := true, 0;
    }

    method Terminate(ghost server: Server) returns (failed: bool)
      modifies this
      ensures terminations == old(terminations) + 1 && terminatedAt == |server.log|
      ensures terminateFailed == failed && (!failed ==> !running)
    {
      terminations := terminations + 1;
      terminatedAt := |server.log|;
      failed := *;
      terminateFailed := failed;
      running := running && failed;
    }
  }

  // ------------------------------------------------------------------------
  // Starting
  // ------------------------------------------------------------------------

  /** The error of a start; terminateFailed says that the error mentions a failed
      clean-up. */
  datatype StartError =
    | NotCustomized
    | NotStarted(terminateFailed: bool)
    | NoEndpoint

  /** tcspanner.Run and testcontainers.GenericContainer: an error may come together with
      a live container. */
  method StartContainer(ghost server: Server) returns (container: Container?, failed: bool)
    modifies server`log
    ensures server.log == old(server.log) + [ContainerStarted(!failed)]
    ensures !failed ==> container != null
    ensures container != null ==> fresh(container) && container.running && container.terminations == 0
  {
    failed := *;
    var live: bool := *;
    container := null;
    if !failed || live {
      container := new Container();
    }
    server.log := server.log + [ContainerStarted(!failed)];
  }

  /** A start that fails leaves at most a container that was terminated once. */
  ghost predicate Terminated(started: Container?)
    reads started
  {
    started == null || started.terminations == 1
  }

  /** terminateContainerAfterStartupError. */
  method TerminateAfterStartupError(container: Container?, ghost server: Server) returns (err: StartError)
    modifies container
    ensures container != null ==> container.terminations == old(container.terminations) + 1
    ensures err == NotStarted(container != null && container.terminateFailed)
    ensures container != null && container.running ==> err == NotStarted(true)
  {
    if container == null {
      return NotStarted(false);
    }
    var failed := container.Terminate(server);
    return NotStarted(failed);
  }

  /** newEmulator. If it fails, a container that was started has been terminated once,
      and if that failed too, the error says so. */
  method NewEmulator(ghost server: Server)
    returns (container: Container?, err: Option<StartError>, ghost started: Container?)
    modifies server`log
    ensures server.log == old(server.log) + [ContainerStarted(err == None)]
    ensures started != null ==> fresh(started)
    ensures container != null <==> err == None
    ensures err == None ==> container == started && container.running && container.terminations == 0
    ensures err != None ==> Terminated(started) && err == Some(NotStarted(started != null && started.terminateFailed))
    ensures err != None && started != null && started.running ==> err == Some(NotStarted(true))
  {
    var failed;
    container, failed := StartContainer(server);
    started := container;
    if failed {
      var startErr := TerminateAfterStartupError(container, server);
      return null, Some(startErr), started;
    }
    return container, None, started;
  }

  /** What a start of Omni asks for, up to the first thing that fails. */
  ghost function OmniStart(err: Option<StartError>): seq<Event> {
    match err
    case Some(NotCustomized) => [RequestCustomized(false)]
    case Some(NotStarted(_)) => [RequestCustomized(true), ContainerStarted(false)]
    case Some(NoEndpoint) => [RequestCustomized(true), ContainerStarted(true), EndpointLookedUp(false)]
    case None => [RequestCustomized(true), ContainerStarted(true), EndpointLookedUp(true)]
  }

  /** startOmni. If it fails, a container that was started has been terminated once. A
      container that still runs is mentioned in the error, except when it was the
      endpoint lookup that failed. */
  method StartOmni(ghost server: Server)
    returns (container: Container?, err: Option<StartError>, ghost started: Container?)
    modifies server`log
    ensures server.log == old(server.log) + OmniStart(err)
    ensures started != null ==> fresh(started)
    ensures container != null <==> err == None
    ensures err == None ==> container == started && container.running && container.terminations == 0
    ensures err != None ==> Terminated(started)
    ensures err != None && started != null && started.running ==>
              err == Some(NotStarted(true)) || err == Some(NoEndpoint)
    ensures err.Some? && err.value.NotStarted? ==> err == Some(NotStarted(started != null && started.terminateFailed))
    ensures err == Some(NotCustomized) ==> started == null
    ensures err == Some(NoEndpoint) ==> started != null
  {
    var customized: bool := *;
    server.log := server.log + [RequestCustomized(customized)];
    if !customized {
      return null, Some(NotCustomized), null;
    }
    var failed;
    container, failed := StartContainer(server);
    started := container;
    if failed {
      var startErr := TerminateAfterStartupError(container, server);
      return null, Some(startErr), started;
    }
    var hasEndpoint: bool := *;
    server.log := server.log + [EndpointLookedUp(hasEndpoint)];
    if !hasEndpoint {
      var _ := container.Terminate(server);
      return null, Some(NoEndpoint), started;
    }
    return container, None, started;
  }

  // ------------------------------------------------------------------------
  // Owners
  // ------------------------------------------------------------------------

  /** *Emulator and *omniRuntime. */
  class Runtime {
    const container: Container?
    var closed: bool
    var closeErr: bool

    constructor (container: Container?)
      ensures this.container == container && !closed
    {
      this.container, closed, closeErr := container, false, false;
    }

    /** The container has been terminated exactly if the runtime was closed. */
    ghost predicate Valid()
      reads this, container
    {
      container != null ==>
        && container.terminations == (if closed then 1 else 0)
        && (closed && container.running ==> closeErr)
        && (closed ==> closeErr == container.terminateFailed)
    }

    /** Close: terminates once, and later calls return what the first one did. */
    method Close(ghost server: Server) returns (failed: bool)
      requires Valid()
      modifies this, container
      ensures Valid() && closed && failed == closeErr
      ensures old(closed) ==> failed == old(closeErr) && (container != null ==> unchanged(container))
      ensures !old(closed) && container != null ==> container.terminatedAt == |server.log|
    {
      if !closed {
        failed := false;
        if container != null {
          failed := container.Terminate(server);
        }
        closed, closeErr := true, failed;
      }
      return closeErr;
    }
  }

  datatype OwnerError = FromClients(errs: seq<CloseError>) | FromRuntime

  /** Every handle of the clients has been closed exactly if the clients were. */
  ghost predicate ClientsOk(c: Clients)
    reads c, c.instanceClient, c.databaseClient, c.client
  {
    var n := if c.closed then 1 else 0;
    && c.Distinct()
    && (c.instanceClient != null ==> c.instanceClient.closes == n)
    && (c.databaseClient != null ==> c.databaseClient.closes == n)
    && (c.client != null ==> c.client.closes == n)
  }

  /** Clients.Close, as its owners rely on it. */
  method CloseClients(server: Server, c: Clients) returns (errs: seq<OwnerError>)
    requires server.Valid() && ClientsOk(c)
    modifies c`closed, c`closeErr, c.instanceClient, c.databaseClient, c.client
    modifies server`instances, server`databases, server`permits, server`now, server`log
    ensures server.Valid() && ClientsOk(c) && c.closed
    ensures errs == if c.closeErr == [] then [] else [FromClients(c.closeErr)]
    ensures old(c.closed) ==> c.closeErr == old(c.closeErr) && unchanged(server)
    ensures !c.dropInstance && !c.dropDatabase ==>
              server.instances == old(server.instances) && server.databases == old(server.databases)
  {
    var clientErrs, _, _ := c.Close(server);
    errs := if clientErrs == [] then [] else [FromClients(clientErrs)];
  }

  /** Env and RuntimeEnv, which close in the same way. Owners may share their parts. */
  class Env {
    const clients: Clients?
    const runtime: Runtime?
    var closed: bool
    var closeErr: seq<OwnerError>

    constructor (clients: Clients?, runtime: Runtime?)
      ensures this.clients == clients && this.runtime == runtime && !closed
    {
      this.clients, this.runtime, closed, closeErr := clients, runtime, false, [];
    }

    ghost function Handles(): set<Client?>
      reads this, clients
    {
      if clients == null then {} else {clients.instanceClient, clients.databaseClient, clients.client}
    }

    ghost function ContainerOf(): Container?
      reads this, runtime
    {
      if runtime == null then null else runtime.container
    }

    /** What the parts returned when they were closed, by whichever owner. */
    ghost function PartErrors(): seq<OwnerError>
      reads clients, runtime
    {
      (if clients == null || clients.closeErr == [] then [] else [FromClients(clients.closeErr)])
      + (if runtime == null || !runtime.closeErr then [] else [FromRuntime])
    }

    /** The parts are consistent, and closed if this owner was, with their errors. */
    ghost predicate Valid()
      reads this, clients, Handles(), runtime, ContainerOf()
    {
      && (clients != null ==> ClientsOk(clients) && (closed ==> clients.closed))
      && (runtime != null ==> runtime.Valid() && (closed ==> runtime.closed))
      && (closed ==> closeErr == PartErrors())
    }

    method CloseRuntime(ghost server: Server) returns (errs: seq<OwnerError>)
      requires runtime != null && runtime.Valid()
      modifies runtime, runtime.container
      ensures runtime.Valid() && runtime.closed
      ensures errs == if runtime.closeErr then [FromRuntime] else []
      ensures old(runtime.closed) ==> runtime.closeErr == old(runtime.closeErr)
      ensures runtime.container != null ==>
                if old(runtime.closed)
                then runtime.container.terminatedAt == old(runtime.container.terminatedAt)
                else runtime.container.terminatedAt == |server.log|
    {
      var failed := runtime.Close(server);
      errs := if failed then [FromRuntime] else [];
    }

    /** The body of Close, run once. */
    method CloseParts(server: Server) returns (errs: seq<OwnerError>)
      requires server.Valid() && (clients != null ==> ClientsOk(clients)) && (runtime != null ==> runtime.Valid())
      modifies (if clients == null then {} else {clients})`closed
      modifies (if clients == null then {} else {clients})`closeErr, Handles()
      modifies runtime, ContainerOf()
      modifies server`instances, server`databases, server`permits, server`now, server`log
      ensures server.Valid()
      ensures clients != null ==> ClientsOk(clients) && clients.closed
      ensures runtime != null ==> runtime.Valid() && runtime.closed
      ensures errs == PartErrors()
      ensures clients != null && old(clients.closed) ==> unchanged(server) && clients.closeErr == old(clients.closeErr)
      ensures clients != null && !clients.dropInstance && !clients.dropDatabase ==>
                server.instances == old(server.instances) && server.databases == old(server.databases)
      ensures runtime != null && old(runtime.closed) ==> runtime.closeErr == old(runtime.closeErr)
      ensures runtime != null && runtime.container != null ==>
                if old(runtime.closed)
                then runtime.container.terminatedAt == old(runtime.container.terminatedAt)
                else runtime.container.terminatedAt == |server.log|
    {
      errs := [];
      if clients != null {
        errs := CloseClients(server, clients);
      }
      if runtime != null {
        var runtimeErrs := CloseRuntime(server);
        errs := errs + runtimeErrs;
      }
    }

    /** Close: the clients with their drops, then the container. Whatever other owners
        have closed before is not closed again. */
    method Close(server: Server) returns (errs: seq<OwnerError>)
      requires server.Valid() && Valid()
      modifies this, (if clients == null then {} else {clients})`closed
      modifies (if clients == null then {} else {clients})`closeErr, Handles()
      modifies runtime, ContainerOf()
      modifies server`instances, server`databases, server`permits, server`now, server`log
      ensures server.Valid() && Valid() && closed && errs == closeErr
      ensures old(closed) ==> errs == old(closeErr) && unchanged(server)
      ensures clients != null && old(clients.closed) ==> unchanged(server)
      ensures clients != null && !clients.dropInstance && !clients.dropDatabase ==>
                server.instances == old(server.instances) && server.databases == old(server.databases)
      ensures errs == PartErrors()
      ensures clients != null && old(clients.closed) ==> clients.closeErr == old(clients.closeErr)
      ensures runtime != null && old(runtime.closed) ==> runtime.closeErr == old(runtime.closeErr)
      ensures runtime != null && runtime.container != null ==>
                if old(closed) || old(runtime.closed)
                then runtime.container.terminatedAt == old(runtime.container.terminatedAt)
                else runtime.container.terminatedAt == |server.log|
    {
      if !closed {
        errs := CloseParts(server);
        closed, closeErr := true, errs;
      }
      return closeErr;
    }
  }

  // ------------------------------------------------------------------------
  // Starting with clients
  // ------------------------------------------------------------------------

  datatype RunCause = Starting(start: StartError) | Opening(open: OpenFailure)

  /** leaked says that the error mentions a failed clean-up of the container. */
  datatype RunError = RunError(cause: RunCause, leaked: bool)

  /** The environment that a successful run hands out: nothing of it closed, its
      container running. */
  ghost predicate Running(env: Env)
    reads env, env.clients, env.Handles(), env.runtime, env.ContainerOf()
  {
    && env.Valid() && !env.closed
    && env.clients != null && !env.clients.closed
    && env.runtime != null && !env.runtime.closed
    && env.runtime.container != null && env.runtime.container.running
  }

  /** What Close is left to drop: the container goes anyway, so nothing unless teardown
      is forced. */
  ghost predicate DropsIfForced(o: Opts, clients: Clients)
    reads clients
  {
    && clients.dropDatabase == (o.schemaTeardown == Some(true) && !o.disableCreateDatabase)
    && clients.dropInstance == (o.schemaTeardown == Some(true) && !o.disableCreateInstance)
  }

  /** RunEmulatorWithClients, after its options are applied. If it fails, every handle
      it opened was closed once and a container it started was terminated once; one that
      still runs is mentioned exactly if it was the start that failed, because the error
      of closing it after a failed open is discarded. If it succeeds, the caller owns all
      of it, and nothing has been closed. */
  method RunEmulatorWithClients(server: Server, o: Opts)
    returns (env: Env?, err: Option<RunError>, ghost started: Container?, ghost handles: seq<Client>,
             ghost setup: seq<Event>, ghost cleanUp: CleanUp)
    requires server.Valid()
    modifies server`instances, server`databases, server`permits, server`now, server`log
    ensures server.Valid()
    ensures env != null <==> err == None
    ensures server.log == old(server.log) + [ContainerStarted(env != null || err.value.cause.Opening?)]
                          + setup + cleanUp.events
    ensures if err.Some? && err.value.cause.Starting? then setup == [] && cleanUp == NO_CLEAN_UP
            else Follows(Plan(o), setup, if err.Some? then Some(err.value.cause.open.cause) else None)
    ensures |handles| == DialCount(setup, o) && (env != null ==> cleanUp == NO_CLEAN_UP)
    ensures env != null ==>
              && Running(env) && fresh(env) && fresh(env.clients) && fresh(env.runtime)
              && fresh(env.Handles()) && fresh(env.ContainerOf())
              && env.ContainerOf() == started && DropsIfForced(o, env.clients)
              && env.clients.target == TargetOf(o)
    ensures err.Some? ==> (err.value.leaked <==> err.value.cause == Starting(NotStarted(true)))
    ensures env == null ==>
              && Terminated(started)
              && (forall k :: 0 <= k < |handles| ==> handles[k].closes == 1)
    ensures env == null && started != null && started.running ==> (err.value.leaked <==> err.value.cause.Starting?)
    ensures err.Some? && err.value.cause.Starting? ==>
              handles == [] && server.instances == old(server.instances) && server.databases == old(server.databases)
    ensures err.Some? && err.value.cause.Opening? ==>
              (server.instances == old(server.instances) && server.databases == old(server.databases)
               <==> err.value.cause.open.rollback == [])
  {
    handles, setup, cleanUp := [], [], NO_CLEAN_UP;
    hide Follows, Plan, TargetOf, CleanedUp, DataDial;
    var container, startErr;
    container, startErr, started := NewEmulator(server);
    if startErr.Some? {
      err := Some(RunError(Starting(startErr.value), startErr.value == NotStarted(true)));
      return null, err, started, handles, setup, cleanUp;
    }
    var runtime := new Runtime(container);
    ghost var created;
    var clients, openErr;
    clients, openErr, created, handles, setup, cleanUp := OpenClients(server, o);
    if clients == null {
      var _ := runtime.Close(server);
      return null, Some(RunError(Opening(openErr.value), false)), started, handles, setup, cleanUp;
    }
    clients.DisableSchemaTeardownUnlessForced(o);
    env := new Env(clients, runtime);
    err := None;
  }

  /** runOmniWithClients, after its options are applied. Unlike RunEmulatorWithClients it
      keeps the error of closing the runtime: a container that still runs after a failure
      is mentioned exactly unless the endpoint lookup failed. */
  method RunOmniWithClients(server: Server, o: Opts)
    returns (env: Env?, err: Option<RunError>, ghost started: Container?, ghost handles: seq<Client>,
             ghost setup: seq<Event>, ghost cleanUp: CleanUp)
    requires server.Valid()
    modifies server`instances, server`databases, server`permits, server`now, server`log
    ensures server.Valid()
    ensures env != null <==> err == None
    ensures server.log == old(server.log)
                          + OmniStart(if err.Some? && err.value.cause.Starting? then Some(err.value.cause.start)
                                      else None)
                          + setup + cleanUp.events
    ensures if err.Some? && err.value.cause.Starting? then setup == [] && cleanUp == NO_CLEAN_UP
            else Follows(Plan(o), setup, if err.Some? then Some(err.value.cause.open.cause) else None)
    ensures |handles| == DialCount(setup, o) && (env != null ==> cleanUp == NO_CLEAN_UP)
    ensures env != null ==>
              && Running(env) && fresh(env) && fresh(env.clients) && fresh(env.runtime)
              && fresh(env.Handles()) && fresh(env.ContainerOf())
              && env.ContainerOf() == started && DropsIfForced(o, env.clients)
              && env.clients.target == TargetOf(o)
    ensures err.Some? ==>
              (err.value.leaked <==>
                 if err.value.cause.Starting? then err.value.cause.start == NotStarted(true)
                 else started != null && started.terminateFailed)
    ensures env == null ==>
              && Terminated(started)
              && (forall k :: 0 <= k < |handles| ==> handles[k].closes == 1)
    ensures env == null && started != null && started.running ==>
              (err.value.leaked <==> err.value.cause != Starting(NoEndpoint))
    ensures err.Some? && err.value.cause.Opening? ==>
              (server.instances == old(server.instances) && server.databases == old(server.databases)
               <==> err.value.cause.open.rollback == [])
  {
    handles, setup, cleanUp := [], [], NO_CLEAN_UP;
    hide Follows, Plan, TargetOf, CleanedUp, DataDial;
    var container, startErr;
    container, startErr, started := StartOmni(server);
    if startErr.Some? {
      err := Some(RunError(Starting(startErr.value), startErr.value == NotStarted(true)));
      return null, err, started, handles, setup, cleanUp;
    }
    var runtime := new Runtime(container);
    ghost var created;
    var clients, openErr;
    clients, openErr, created, handles, setup, cleanUp := OpenClients(server, o);
    if clients == null {
      var closeErr := runtime.Close(server);
      return null, Some(RunError(Opening(openErr.value), closeErr)), started, handles, setup, cleanUp;
    }
    clients.DisableSchemaTeardownUnlessForced(o);
    env := new Env(clients, runtime);
    err := None;
  }

  // ------------------------------------------------------------------------
  // Two owners
  // ------------------------------------------------------------------------

  /** SetupWithClients wraps the parts of an Env whose Close is already registered in a
      second owner. Whichever of them a caller closes first, and however often either: all
      calls return the same error, each handle is closed once, the container is terminated
      once, and the server is touched by the first call only, before the container goes.
      An entry of order stands for one call, of the Env if it is true. */
  method CloseBothOwners(server: Server, env: Env, order: seq<bool>) returns (results: seq<seq<OwnerError>>)
    requires server.Valid() && Running(env) && order != []
    modifies env, env.clients`closed, env.clients`closeErr, env.Handles()
    modifies env.runtime, env.ContainerOf()
    modifies server`instances, server`databases, server`permits, server`now, server`log
    ensures |results| == |order| && forall k :: 0 <= k < |results| ==> results[k] == env.PartErrors()
    ensures env.runtime.container.terminations == 1
    ensures env.runtime.container.terminatedAt == |server.log|
    ensures ClientsOk(env.clients) && env.clients.closed
    ensures !env.clients.dropInstance && !env.clients.dropDatabase ==>
              server.instances == old(server.instances) && server.databases == old(server.databases)
    ensures env.PartErrors() == [] ==> !env.runtime.container.running
  {
    var second := new Env(env.clients, env.runtime);
    var first := if order[0] then env else second;
    var errs := first.Close(server);
    results := [errs];
    ghost var log, instances, databases := server.log, server.instances, server.databases;
    while |results| < |order|
      invariant 1 <= |results| <= |order|
      invariant server.Valid() && env.Valid() && second.Valid()
      invariant env.clients.closed && env.runtime.closed && env.PartErrors() == errs
      invariant forall k :: 0 <= k < |results| ==> results[k] == errs
      invariant server.log == log && server.instances == instances && server.databases == databases
      invariant env.runtime.container.terminatedAt == |log|
      decreases |order| - |results|
    {
      var owner := if order[|results|] then env else second;
      var again := owner.Close(server);
      results := results + [again];
    }
  }
}
