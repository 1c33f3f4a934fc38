# A verified model of spanemuboost

spanemuboost boots a Spanner test backend (the Cloud Spanner Emulator or Spanner Omni), creates an
instance and a database, hands out clients, and tears everything down again. The gRPC calls and the
containers are opaque; the ownership protocol around them is not. This project models that protocol in
Dafny and proves what it keeps. `dafny verify dfyconfig.toml` checks all of it.

| file | module | models |
|---|---|---|
| `provision.dfy` | Provision | open, rollback, drop with retries, close, against a server that may fail any call (`internal.go`, `close.go`, `admin_ops.go`, `spanemuboost.go`) |
| `sessions.dfy` | Sessions | any number of sessions interleaved on one server, with the per-instance lock |
| `ownership.dfy` | Ownership | who owns which instance and database in those runs, and when nobody deletes what is not their own |
| `lone_session.dfy`, `granted_session.dfy` | LoneSession, GrantedSession | one session alone in that transition system, against the methods of `provision.dfy`: where it can end, and that it gets there |
| `runtimes.dfy` | Runtimes | who owns the container, from start to the last `Close` (`internal.go`, `omni.go`, `emulator.go`, `runtime.go`) |
| `lazy.dfy` | Lazy | the two `sync.Once` cells of a lazy runtime under any number of goroutines (`lazy.go`) |
| `close_once.dfy` | CloseOnce | close-once handles that close each other, under any number of goroutines (`close.go`) |
| `close_slot.dfy` | CloseSlot | how a handle gets its one closeState (`close.go`) |
| `options.dfy`, `option_laws.dfy` | Options, OptionLaws | the algebra of options, finalizers and inheritance, and its laws (`options.go`, `runtime.go`, `attached.go`, `omni.go`) |
| `option_meaning.dfy` | OptionMeaning | what lists of options and finalization mean field by field, and what is accepted at all |
| `options_record.dfy` | OptionsRecords | the options struct whose fields the options assign, proved against the algebra |
| `omni_image.dfy` | OmniImage | the image classifier and the customizer loop (`omni.go`) |
| `stop.dfy` | Stop | SIGTERM, poll, SIGKILL, poll, clean-up (`stop.go`) |
| `serve.dfy` | Serve | the atomic endpoint file and the deferred clean-up around a served runtime (`serve.go`, `endpoint.go`) |
| `ids.dfy` | Ids | resource paths, their inverse, the ID grammar (`util.go`, `admin_ops.go`, `options.go`) |
| `common.dfy` | Common | Option and Result |

## How the outside world appears

- Code that changes things step by step is a class or a method with loops; its contract ties the new
  state to the old one. Concurrency is a transition system over atomic steps, and its theorems range
  over every run, that is, every interleaving.
- Every RPC, file operation, signal and container call chooses its outcome with `*`, so a theorem holds
  for every fault schedule. RPCs are atomic: an error means no effect. NotFound is only said of what is
  absent, and AlreadyExists only of what is there. A container start may return an error together with
  a live container.
- Whatever is asked of the outside world is logged by the outside world, with its answer and, where one
  was given, its deadline. A contract that names the log says which calls were made; an error is tied to
  the call that failed. The create and drop RPCs require the permit of their instance to be taken, so
  code that issues them without the lock does not verify.
- Clocks move inside calls and timers, by any amount that respects the deadline of the call. In `stop.dfy`
  time is in nanoseconds and also passes between any two readings of the clock.
- The random number generator, also that of `os.CreateTemp`, and the container-provider environment
  variable are parameters. Go strings are sequences of bytes, one `char` each.

## Where the tempting statement is false

The code is modelled as it is. Where a natural law fails, the project proves exactly when it holds.

- Recovering the instance path from a database path fails exactly when the project or the instance ID
  is `databases`, which the ID grammar accepts (`Ids.ValidatedPathInverse`). Then create and drop use
  different lock keys and can overlap on one instance; otherwise they never do (`Sessions.OverlapExactly`).
- Sessions drop only what they created, in every interleaving, exactly when no session combines forced
  teardown and database creation on a database that is there or that another session may create, and no
  session creates an instance that another one relies on (`Ownership.OwnershipExactly`).
- Deleting an instance can take another session's database along, exactly when some session creates an
  instance in which another one, that does not, may create a database (`Ownership.DeletionsExactly`).
  The instance itself is always the session's own (`Ownership.InstanceOwnership`).
- Finalizing options twice gives the same record exactly when neither the project nor the instance ID is
  random; those flags have no "resolved" mark (`OptionLaws.RefinalizeExactly`, with a failing input in
  `OptionLaws.RandomProjectRefinalized`).
- `WithDatabaseID` is not last-wins for the creation policy (`OptionLaws.DatabaseIDIsNotLastWins`).
- The attached runtime's shortcut skips the finalizer. The finalizer would succeed exactly unless the
  provider variable is by then unparseable, because it reads that variable again
  (`OptionLaws.ShortcutRefinesFullPath`).
- A clean open and close restores the server exactly when teardown matches creation
  (`Provision.OpenThenClose`): a session with a random database ID leaves its database behind unless
  teardown is forced (`Provision.RandomDatabaseStaysBehind`).
- A container that still runs after a failed run is mentioned in the error, for Omni, exactly unless it
  was the endpoint lookup that failed (`Runtimes.RunOmniWithClients`), and for the emulator exactly if it
  was the start that failed: after a failed open the error of `Close` is discarded
  (`Runtimes.RunEmulatorWithClients`).
- After a failed open the rollback reports no error exactly if the server is as before
  (`Provision.OpenClients`). Where somebody else has deleted the recorded instance meanwhile, nothing is
  left and the rollback still reports an error, always (`Provision.RollbackCreatedResources`).
- The endpoint file is replaced atomically exactly if the temporary file is another one
  (`Serve.SaveEndpoint`). Some draw of `os.CreateTemp` makes them the same exactly if the target does not
  exist yet and has the shape of a temporary name (`Serve.DrawnExactly`).
- A wait of a stop can end without a single poll, exactly if the clock reaches the deadline before the
  first test; SIGKILL may then follow SIGTERM directly, though never before the timeout
  (`Stop.PollUntilGone`, `Stop.KillOnlyAfterTimeout`).
- Under concurrent calls the container goes after everything of the clients if nobody closes it or a lazy
  handle directly (`CloseOnce.ContainerGoesLast`); closed directly it may go before them
  (`CloseOnce.ContainerMayGoFirst`).

## Model

| member | source | states |
|---|---|---|
| Provision.TryDrop | close.go:34-42 | One attempt: exactly one RPC under the permit of the instance, with the deadline of the attempt, or a refused lock; the database is gone exactly if the RPC answered OK or NotFound; the permits are all back, and the attempt ends by its deadline |
| Provision.DropDatabaseWithRetry | close.go:28-67 | Success exactly when the last attempt ran the RPC and got OK or NotFound (never from a lock failure or an earlier error), and then the database is gone, otherwise nothing changed and the error is that of the last attempt, after three attempts or because the context ends before the next one; the log shows every attempt with its own timeout, 5 and 10 seconds apart; under a context with the full budget all of them run, each starts with its whole timeout left, and the total stays within the budget |
| Provision.KeepsBudget | close.go:18-26 | Any attempts that keep to their timeouts and back-offs, started with the full budget, each begin with their whole timeout left and end within the budget |
| Provision.AwaitTimer | close.go:49-60 | The wait between attempts ends when the timer fires or at the end of the context, whichever is first |
| Provision.BootstrapInstance | internal.go:187-195 | The RPC is issued exactly if creation is enabled, and its failure is the error; without an error the instance was created exactly if creation is enabled, and only if it was not there; with one nothing changed |
| Provision.CreateDatabase | internal.go:297-323 | The RPC, with dialect, DDL and descriptors of the options, runs under the permit of the instance path; "created" exactly if the database was not there before and now is; AlreadyExists is a success that created nothing; any other answer, or a lock that is not taken, is the error and creates nothing |
| Provision.BootstrapDatabase | internal.go:199-207 | With creation enabled the database is created with its schema, otherwise the DDL is applied if there is some, and a failure is the error; "created" means that the database did not exist before; with creation disabled nothing is created |
| Provision.BootstrapClient | internal.go:412-421 | The data client is dialled, then the DML runs if there is some; the first failure is the error |
| Provision.RollbackCreatedResources | internal.go:438-498 | When every recorded resource is there at the start, no error if and only if every one is gone at the end; a recorded instance that was gone already is always an error; the deletion of a recorded instance is always asked for, and the drop of a recorded database whenever that may have left it behind, all under the rollback timeout; every error is that of a call that failed or of a missing client; nothing unrecorded is deleted |
| Provision.Bootstrap | internal.go:397-421 | All calls of the plan were made in order, up to the first that failed, which is the error; the server changed by exactly what is recorded as created, none of which existed; no database is recorded without a database client |
| Provision.CleanUpFailedOpen | internal.go:381-395 | The data client is closed, then the rollback asks for its deletions, then the admin clients are closed, each open handle once; the rollback is clean if and only if the recorded resources are gone |
| Provision.OpenClients | internal.go:372-436 | All or nothing: it succeeds exactly if everything of the plan was granted (dials, instance, database with schema or DDL, data client, DML), and otherwise fails with the first refusal; a success changed the server by exactly the recorded resources and closed no handle; a failure closed each dialled client exactly once, around a rollback of the record, deleted nothing from before, and left the server as it was if and only if its rollback is clean; the drop flags follow from options and record |
| Provision.Clients.DisableSchemaTeardownUnlessForced | runtime.go:105-111 | Both drop flags survive exactly under forced teardown |
| Provision.Clients.TearDown | spanemuboost.go:90-110 | The instance is deleted by one call within the close timeout, or else the database dropped with the whole retry budget, which no attempt exceeds, all attempts made; the errors are exactly those of these calls or of a missing client; no error means completed teardown of the own target, an error that nothing was deleted |
| Provision.Clients.CloseAdminClients | spanemuboost.go:112-117 | The database admin client is closed before the instance admin client, each once, and the errors are exactly those of the closes that failed |
| Provision.Clients.Close | spanemuboost.go:80-120 | The first call closes the data client, then tears down, then closes the admin clients, each handle once, and joins the errors of the teardown and of the two closes; later calls change nothing and return the same; the teardown is complete exactly if it has no error of its own |
| Provision.RandomDatabaseStaysBehind | options.go:502-510 | Teardown does not match creation for a random database ID without forced teardown |
| Provision.OpenThenClose | spanemuboost.go:193-205 | A whole session: after a clean open and teardown, what is left follows from the option fields alone (what ForceSchemaTeardown and SkipSchemaTeardown say, and by default everything but random IDs goes, with creation enabled), and the server is as before if and only if teardown matches creation; after a failed open it is as before if and only if the rollback is clean; under SkipSchemaTeardown what was created stays in any case; no instance from before is ever deleted, and a database from before only under forced teardown with creation enabled |
| Sessions.NoOverlap | admin_ops.go:16-39 | In every interleaving, with any cancelled waits, no two admin RPCs under the lock overlap on one instance when neither ID is `databases` |
| Sessions.KeysAgree | close.go:32 | Create and drop use one lock key exactly when neither ID is `databases` |
| Sessions.SameKindSameKey | admin_ops.go:41-47 | Two creates, or two drops, on one instance always share their key |
| Sessions.RunKeepsLock | admin_ops.go:16-28 | At every step of every run each permit is held by exactly the session whose RPC is in flight under it: permits are conserved |
| Sessions.OverlapsAreMixed | admin_ops.go:16-47 | Whenever two admin RPCs overlap on one instance, one is a create and the other a drop |
| Sessions.OverlapReachable | admin_ops.go:41-47 | With an ID spelled `databases` there is a run in which a create and a drop on one instance are in flight together |
| Sessions.OverlapExactly | admin_ops.go:16-47 | A create and a drop can be in flight together on an instance if and only if one of its IDs is `databases` |
| Sessions.Progress | close.go:28-67 | While a session is not over, some session has a step that succeeds: nobody waits for ever on a lock |
| Sessions.RunLength | internal.go:372-436 | n sessions take at most 20n steps under any faults and in any schedule, so every maximal run ends with all of them over |
| LoneSession.RunKeepsLone | internal.go:372-498 | At every step of one session alone, the server holds what was there before, plus what the session owes, minus what it dropped, and the phase agrees with whether the open has succeeded |
| LoneSession.EndsAsOpenThenClose | spanemuboost.go:193-205 | A session alone ends in the states that `Provision.OpenThenClose` ensures: after a failed open the server is as before if and only if all is rolled back, after an open and a clean close if and only if teardown matches creation; no instance from before is gone, and a database only under forced teardown with creation enabled |
| GrantedSession.SessionGranted | internal.go:372-436 | A session alone with every call granted: it is refused exactly if the instance to create is there, or the one for its database is not, and then changes nothing; otherwise it opens, closes, and leaves behind what the options say |
| GrantedSession.FailedOpenRollsBack | internal.go:438-498 | Wherever in a run of one session the open fails: with every call of its rollback granted, the server ends as before |
| GrantedSession.ThreeAttempts | close.go:34-66 | After two failed drop attempts the third one still drops the database; if it fails too, the session gives up with the database left |
| GrantedSession.DropsInstead | internal.go:448-477 | A rollback whose instance deletion fails, with the instance still there, drops its database instead |
| Ownership.RunKeepsBase | internal.go:397-435 | The invariant of all runs, without hypothesis: an instance exists exactly if it was there before or one session owes it; a database lives in an instance and has the creator the server knows; every DeleteInstance was the owner's |
| Ownership.InstanceOwnership | spanemuboost.go:90-101 | For any number of sessions with any options: every DeleteInstance, by Close or by a rollback, targets an instance that this session created and that still exists |
| Ownership.InstanceConservation | internal.go:448-477 | At every moment an instance exists if and only if it was there before or some session created it and has not deleted it, and no two sessions owe the same one |
| Ownership.DeletionsExactly | internal.go:452-454 | For every starting state: no DeleteInstance of any run takes a database along that another session created if and only if no session creates an instance in which another one, that relies on it, may create a database |
| Ownership.RunKeepsOwnership | internal.go:407-435 | The ownership invariant of all runs from a safe start: what a session owes is there and its own, what was there before still is, and every drop was its creator's |
| Ownership.ExclusiveOwnership | spanemuboost.go:102-110 | Every drop issued, first try or retry, by Close or by a rollback, targets a database that this session created and that still exists, and goes on existing while the RPC is in flight |
| Ownership.NeverBothOwe | internal.go:407-435 | Two sessions never both owe the drop of one live database |
| Ownership.Conservation | internal.go:407-435 | At every moment a database exists if and only if it was there before or some session created it and has not deleted it |
| Ownership.OwnershipExactly | internal.go:423-434 | For every starting state, instance creation included: all runs drop only what the dropping session created and what still exists if and only if no session takes over (forced teardown and creation) a database that is there or that another may create, and none relies on an instance that another creates |
| Runtimes.NewEmulator | internal.go:36-81 | It fails exactly if the start of the container does; a failed start leaves no container, or one terminated exactly once, and the error says exactly whether that failed; a success hands over a running, never terminated container |
| Runtimes.TerminateAfterStartupError | internal.go:71-81 | A container that came with a start error is terminated once, and the error mentions exactly a failure of that |
| Runtimes.StartOmni | omni.go:273-298 | Customizers, start and endpoint lookup are asked for in this order, and the first that fails is the error; clean-up as for the emulator, also after a failed lookup, whose error does not mention a container that still runs |
| Runtimes.Runtime.Close | emulator.go:59-71 | The container is terminated by the first call only, after everything logged so far; later calls return the same error |
| Runtimes.CloseClients | close.go:76-81 | Closing clients that another owner has closed touches neither handles nor server and yields the first error |
| Runtimes.Env.Close | emulator.go:188-202 | Clients and their drops before the container; parts that another owner closed are not closed again; repeated calls return the first error; no error means the container does not run |
| Runtimes.RunEmulatorWithClients | spanemuboost.go:152-177 | It succeeds exactly if the start and the whole plan of the open were granted; on failure every dialled client was closed once and a started container terminated once, a container that still runs is mentioned if and only if the start failed, and after a failed open the server is as before if and only if the rollback is clean; on success nothing is closed, and Close will drop exactly what forced teardown and creation ask for |
| Runtimes.RunOmniWithClients | omni.go:159-181 | As above, except that a failure to terminate is mentioned in the error if and only if it was not the endpoint lookup that failed |
| Runtimes.Env.CloseParts | emulator.go:192-201 | The body of Close: the errors are those the two parts keep, clients before container, whoever closed them; clients that were closed already leave handles and server untouched |
| Runtimes.CloseBothOwners | runtime.go:266-280 | Two owners over the same parts, under every nonempty sequence of calls to them: all calls of both owners return the same errors, each handle is closed once, the container terminated once, after everything logged on the server, and no error means that it does not run |
| Lazy.LazySafety | lazy.go:22-57 | In every reachable state: start ran at most once, the runtime was closed at most once and only after start was over, every returned get has the outcome of that one start, and none is a typed nil |
| Lazy.GetsDeliver | lazy.go:36-46 | Once start has ended in some way, every get that returns, at any later point of any run, hands out that: its panic; its live runtime with its error; its error without one; or the missing runtime if it returned neither |
| Lazy.GetsHaveACause | lazy.go:22-35 | No get returns unless start has ended or a close had taken the first once |
| Lazy.ClosesDeliver | lazy.go:49-57 | Every close returns what closing the live runtime returned in this run, or nil without one |
| Lazy.GetsAgree | lazy.go:22-47 | Any two gets that return at any points of a run give the same value and error, or repanic alike |
| Lazy.ClosesAgree | lazy.go:49-57 | Any two closes return the same error |
| Lazy.NoLeakAfterClose | lazy.go:49-57 | Once any close has returned, a live runtime has been closed exactly once and nothing starts or closes for the rest of the run |
| Lazy.CloseWins | lazy.go:23-52 | If close takes the first once, start never runs, nothing is closed, and every get reports the missing runtime |
| Lazy.Progress | lazy.go:22-57 | While some call has not returned, some goroutine has a step, whatever the outside world chooses |
| Lazy.RunLength | lazy.go:22-57 | n calls take at most 7n steps in any schedule, so every maximal run ends with all calls returned |
| Lazy.RunKeepsInv | lazy.go:8-20 | Who runs a once, and what the fields hold until it is done, for every reachable state |
| Lazy.LazyRuntimeState.Get | lazy.go:22-47 | The first call delivers the outcome of start and keeps it in the fields; later calls change nothing and return what the fields determine |
| Lazy.LazyRuntimeState.Close | lazy.go:49-57 | The first call returns what closing a live runtime returns; later calls return the same |
| Lazy.LoneGet | lazy.go:22-47 | An undisturbed get of the transition system does exactly what the method does |
| Lazy.LoneClose | lazy.go:49-57 | An undisturbed close of the transition system does exactly what the method does |
| CloseOnce.EffectsAtMostOnce | close.go:69-81 | For any acyclic set of handles and any interleaving of Close calls: no effect is performed twice, and one handle's effects come in body order |
| CloseOnce.SameResult | close.go:76-81 | All Close calls on one handle return the same error |
| CloseOnce.ResultJoins | close.go:76-81 | What a Close returns joins, in the order of its body, what every effect returned and the errors of all handles it closes |
| CloseOnce.CloseCompletes | emulator.go:188-202 | When a Close has returned, every effect of that handle and of all it owns has been performed, whoever did it |
| CloseOnce.Progress | close.go:76-81 | No deadlock: following blocked callers to the owner of what they wait for ends at one that can step |
| CloseOnce.RunLength | close.go:76-81 | Every run is finite, with a bound known at the start |
| CloseOnce.RunKeepsInv | close.go:69-93 | The log holds exactly the effects that are over, and an instruction that is over has completed the handle it called |
| CloseOnce.HandlesAcyclic | runtime.go:190-204 | The package's own handles own each other without a cycle, and both environments own clients and container |
| CloseOnce.OverlappingOwners | runtime.go:266-280 | After any mix of calls in which an Env or RuntimeEnv Close returned: data client, drop, database admin client and instance admin client exactly once and in this order, and exactly one container termination |
| CloseOnce.ContainerGoesLast | emulator.go:188-202 | If nobody closes the container or a lazy handle directly: after any mix of concurrent calls in which an Env or RuntimeEnv Close returned, the container was terminated after the data client, the drop and both admin clients |
| CloseOnce.ContainerMayGoFirst | emulator.go:59-71 | Otherwise not: there is a run in which one goroutine closes the container and another one, in the Env, the data client after it |
| CloseSlot.OneCellEach | close.go:83-93 | For any number of goroutines and handles: two calls return the same closeState if and only if they are for the same handle |
| CloseSlot.Progress | close.go:86-93 | While a call has not returned, some goroutine has a step |
| CloseSlot.RunKeepsInv | close.go:86-93 | The mutex is held exactly by the goroutine inside, slots never share a closeState, and a filled slot never changes |
| CloseSlot.Handle.EnsureCloseState | close.go:86-93 | The closeState the slot had, or a fresh one that it now has |
| OptionsRecords.OptionsRecord.LeaveInheritedDatabase | options.go:240-254 | Creation comes back on exactly if the record reuses a database and another one is named; a resolved random ID is given up |
| OptionsRecords.OptionsRecord.SetDatabaseID | options.go:240-258 | The ordered field edits of WithDatabaseID have the net effect the option algebra works with, and touch no other field |
| OptionsRecords.OptionsRecord.ApplyOption | options.go:65-478 | Whether an option is rejected, and why, depends on the option alone, and then no field changes; otherwise each ID makes exactly the step of the option, so do the creation switch and every other setting, and options of another kind leave IDs and creation alone |
| OptionsRecords.OptionsRecord.ApplyContainerProviderEnv | options.go:709-732 | An error exactly if no option set a provider and the variable is unparseable; the customizers of the options stay, behind one for the variable's provider; a second run changes nothing |
| OptionsRecords.OptionsRecord.ValidateResourceIDs | options.go:622-653 | The first of project, instance and database ID that is outside the grammar is reported, and none exactly if all three are inside |
| OptionsRecords.OptionsRecord.FinishOptions | options.go:573-600 | What passes has valid IDs, keeps its policy and set-up work, and is a fixed point of this tail |
| OptionsRecords.OptionsRecord.FinalizeEmulatorOptions | options.go:548-600 | The error is that of the first rule that is broken; what passes has the drawn, explicit or default IDs and every other field as in `OptionMeaning.FinalizedRecord`, and passes again unchanged if and only if neither its project nor its instance ID is random |
| OptionsRecords.OptionsRecord.FinalizeOmniOptions | omni.go:213-267 | The same for Omni, with the separate guardrail checks amounting to the first violated rule |
| OptionsRecords.ApplyOptions | options.go:526-534 | The loop is the fold of the algebra, up to the first rejected option |
| OptionsRecords.ApplyWithBase | options.go:526-534 | The options run on a copy, so the base is untouched; the IDs, the settings and both creation switches of what comes out follow from list and base by closed forms |
| OptionsRecords.OptionsRecord.InheritedRuntimeOptions | runtime.go:88-103 | A fresh record that creates nothing, forces no teardown and holds no unsettled ID |
| OptionsRecords.InheritedOptions | omni.go:183-187 | Reopening an emulator or Omni, whose guardrail switch goes along: what comes out follows from the list and the runtime's options by closed forms |
| OptionsRecords.AttachedInheritedOptions | attached.go:168-209 | The conditional copies amount to the closed form of the attached base, which is returned as it is without options, and otherwise finalized with the list on top |
| OptionLaws.CreationPolicy | options.go:240-275 | For every option list on an inherited base: the final creation switch is that of the last auto-config or random-ID option; without one, creation stays off exactly when the first WithDatabaseID names the inherited database; with neither, it stays off |
| OptionLaws.PolicyOfList | options.go:414-454 | The closed form of the creation switch for every base and list, before finalizing |
| OptionLaws.InheritedBasesReuse | runtime.go:88-103 | The inherited bases of both backends reuse their database, create nothing, force no teardown and hold no unsettled ID |
| OptionLaws.DatabaseIDIsNotLastWins | options.go:244-247 | Naming another database and then the inherited one again leaves creation on |
| OptionLaws.InstancePolicy | options.go:414-454 | The instance creation switch is last-wins over five options |
| OptionLaws.ConflictVerdict | options.go:181-283 | For every base and list and each kind of ID: it is both explicit and to be generated exactly when the list asks for both (a nonempty explicit ID last after the last random option, not taken back) |
| OptionLaws.EmulatorConflicts | options.go:548-572 | finalizeOptions reports each conflict exactly when the list asks for it, project before instance before database |
| OptionLaws.OmniConflicts | omni.go:213-250 | The same for Omni, where a guardrail speaks before the database conflict |
| OptionLaws.BasesAreSettled | attached.go:185-190 | Fresh, inherited and attached bases all meet the hypothesis of the verdict |
| OptionLaws.VerdictIgnoresBase | options.go:564-566 | The database conflict is the same on any two of those bases, also for rejected lists; for Omni, where no guardrail speaks first |
| OptionLaws.FinalizeKeepsPolicy | options.go:548-600 | Finalizing changes no policy, teardown, dialect or set-up field |
| OptionLaws.FinishedShape | options.go:573-653 | A finished record has valid nonempty IDs, an image, and is a fixed point of the client-config merge and of the provider variable |
| OptionLaws.ClientConfigIdempotent | omni.go:89-104 | The client-config merge of either backend is idempotent |
| OptionLaws.FinishIdempotent | options.go:573-600 | The common tail of the finalizers is idempotent |
| OptionLaws.RefinalizeExactly | options.go:549-572 | Finalizing a finalized record returns it if and only if neither project nor instance ID is random |
| OptionLaws.RandomProjectRefinalized | options.go:549-551 | A fresh record with a random project ID is accepted once and is a project conflict the second time |
| OptionLaws.GuardrailsPassAgain | omni.go:220-243 | What passed the Omni guardrails passes them again after finalizing |
| OptionLaws.AttachedBaseClosedForm | attached.go:185-209 | Copying settings only when they are set amounts to keeping all of them and dropping exactly the container settings, the image, the two random flags and instance creation |
| OptionLaws.ShortcutRefinesFullPath | attached.go:168-183 | For every attached runtime built from any accepted list: the full finalizer succeeds on its base if and only if the provider variable parses, and then agrees with the shortcut in every field but image and container provider |
| OptionMeaning.SettingsOfList | options.go:65-478 | For every base and accepted list: image, teardown, dialect, guardrails, provider mark, client configuration and set-up are those of the last option that sets them; customizers, client options and gateway flags are the base's followed by what every option adds |
| OptionMeaning.LastSetIsLast | options.go:456-478 | An option that sets a field, with no later one that does, decides it |
| OptionMeaning.IdOfList | options.go:181-283 | The ID left by a list is that of the last option that gives one or asks for a random one |
| OptionMeaning.RejectionOfList | options.go:526-534 | A list is rejected if and only if one of its options is, with the error of the first such option |
| OptionMeaning.FinalizedRecord | options.go:548-600 | Every field of a finalized record, for both backends: drawn, explicit or default IDs and image, the client configuration that guardrails force, the provider of the variable in front of the customizers, and all else as before |
| OptionMeaning.FinalizeVerdict | omni.go:213-250 | A finalization is accepted if and only if no rule is broken, guardrails included, and otherwise returns the error of the first one in the order of the checks |
| OptionMeaning.VerdictIsBroken | omni.go:213-250 | There is an error exactly if some rule is broken by the record's own fields, and it names such a rule |
| OptionMeaning.FinalIDsMeant | options.go:548-600 | From list to result on any settled base: each ID is drawn exactly if the list asks for that and does not take it back, else it is the last one given, else the default of the backend |
| OptionMeaning.FinalPolicyMeant | options.go:414-454 | From list to result: both creation switches in closed form |
| OptionMeaning.ReopenedAsIs | runtime.go:88-103 | Opening clients on a running runtime without options addresses the same resources, with the same dialect, client configuration and guardrails, and creates nothing; it fails exactly on an unparseable provider variable |
| OmniImage.ClassifierAgreesWithGrammar | omni.go:36-45 | The tag scan accepts exactly the references of a declarative grammar |
| OmniImage.DigestIrrelevant | omni.go:36-45 | An `@` suffix never changes the command |
| OmniImage.RegistryIrrelevant | omni.go:36-45 | An `@`-free registry path prefix never changes the command |
| OmniImage.BuildRequest | omni.go:310-341 | The loop over a mutable request computes its specification, error included, with commands edited in place or replaced |
| OmniImage.ContainerRequest.Customize | omni.go:326-330 | A customizer may edit the command inside the existing array, which the loop's own copy must not notice |
| OmniImage.CommandFollowsImage | omni.go:336-338 | While no customizer changes the command, it is the automatic one for the current image |
| OmniImage.TakeoverIsPlain | omni.go:331-335 | From the first customizer that changes the command or fails, the result is that of plain application |
| OmniImage.LoopClosedForm | omni.go:325-339 | Both together for every list of customizers |
| Stop.ResolvedPIDIsPositive | stop.go:93-116 | The ID is the number in the PID file when that is configured, and otherwise the one in the endpoint file; only a positive one is ever signalled; no path means an error |
| Stop.PollUntilGone | stop.go:47-57 | A bounded number of polls, all answered except one that finds the process dead; a timeout is a full one, and no poll is made at all if and only if the clock had reached the deadline by the first test; every answered poll is followed by one interval of waiting |
| Stop.WaitForEndpointCleanup | stop.go:118-145 | The PID file is removed first, whether that works or not; the endpoint file is looked for until it is gone, or removed by force after the clean-up wait with every look having found it; the error is exactly that of the removal; nil means it is absent |
| Stop.RetireEndpoint | stop.go:123-145 | Looks at the endpoint file come one interval apart, and none is made exactly if the clock has reached the limit by the first test; the file is removed by force only at the limit or at the end of the clean-up context |
| Stop.FinishStopCleanup | stop.go:83-87 | The forced removal waits a full second, on a context of its own |
| Stop.KillAndWait | stop.go:59-80 | One SIGKILL to the same process; if it was sent, a wait of its own for the whole timeout before the process counts as still running; a process found dead is cleaned up after, otherwise no file is touched; each error is that of the call that failed, or the end of the context |
| Stop.WaitThenKill | stop.go:47-80 | SIGKILL only after the whole timeout, with the process alive at every poll that was made; a process found dead is cleaned up after and not killed; Cancelled only at the end of the context |
| Stop.StopProcess | stop.go:40-81 | SIGTERM comes first, to the resolved process; a process that is already gone is cleaned up after at once; exactly a failed SIGTERM ends the stop |
| Stop.StopFromConfig | stop.go:27-81 | For any behaviour of the process and the file system: the calls follow the protocol in order and decide the result; nil means that the process is dead and the endpoint file was absent at the last look; a cancelled wait comes from the context, and "did not exit" only the whole timeout after SIGKILL was sent; neither removes a file |
| Stop.KillOnlyAfterTimeout | stop.go:47-65 | In the whole trace: at most one SIGKILL, to the process that got SIGTERM, at least the timeout after it, and whatever calls lie between were answered polls |
| Stop.CleanUpComesLast | stop.go:83-87 | No signal or poll follows the begin of the clean-up |
| Stop.StopIsBounded | stop.go:47-80 | The number of signals and polls is bounded by the timeout |
| Serve.FillTemp | endpoint.go:229-239 | Write, chmod and close are made in this order, the first that fails is the error, and the file is closed in any case; only the temporary file changes; a success gave it the complete content and mode 0600 |
| Serve.ReplaceVia | endpoint.go:222-244 | The target keeps its content at every step before the rename; on any failure the temporary file is removed, and gone unless that failed |
| Serve.SaveEndpoint | endpoint.go:205-245 | An endpoint that is not usable or cannot be marshalled is refused before anything is touched, and any other error is that of the call that failed; under a fault at any step the target holds its old content at every step but the last of a success, which puts the complete content in place, if and only if the temporary file is another one; a failure leaves all files as they were unless removing the temporary file failed |
| Serve.DrawnExactly | endpoint.go:218-222 | Some 32-bit draw makes the target the temporary file if and only if the target is missing and its name is the prefix, the decimal numeral of such a draw and the suffix |
| Serve.ValueWritesBack | endpoint.go:218-222 | The names that os.CreateTemp can draw: a numeral without leading zeros is what its value is written as |
| Serve.NumeralReadsBack | endpoint.go:218-222 | The numeral of a draw reads back as the draw and has no leading zero, so different draws give different names |
| Serve.SaveThenRead | endpoint.go:192-202 | With a codec that reads what it writes, an endpoint that was saved is read back as it was |
| Serve.ReadEndpointFile | endpoint.go:192-202 | Yields an endpoint exactly if the file is there, parses, and names a known backend, a URI, a project and an instance |
| Serve.ServeOpen | serve.go:27-49 | While the runtime is open: without an endpoint, or when saving it fails, that is the error and nothing is awaited; otherwise one wait; the endpoint file is gone at the end unless its removal failed |
| Serve.Serve | serve.go:15-50 | The runtime is started, the endpoint saved, and only then and exactly once the end of the context awaited, with the runtime open and the complete file in place unless others remove it; nil or the deadline error is returned only after that, the latter exactly if the context ended otherwise than by being cancelled; a fresh endpoint file exists only while the runtime is open if and only if it is gone at the end, which fails only if its removal failed; Close of the runtime has been called on return, whatever it returned |
| Serve.WaitAndRetract | serve.go:38-49 | One wait for the end of the context, whose kind decides the result, then the removal of the endpoint file, which is gone or its removal failed; other files changed only by others |
| Serve.ServeFromConfig | serve.go:61-73 | Nothing starts without the PID file, and Serve makes all of its calls between writing and removing it; it is there and complete at every step with an open runtime unless others remove it; it is gone at the end unless writing or removing it failed |
| Ids.PathInverse | admin_ops.go:41-47 | For slash-free IDs the instance path is recovered if and only if neither ID is `databases` |
| Ids.ValidatedPathInverse | admin_ops.go:41-47 | The same for validated IDs, and the grammar accepts `databases` |
| Ids.DatabasePathInjective | util.go:13-15 | Different ID triples never share a database path |
| Ids.InstancePathInjective | util.go:9-11 | Different ID pairs never share an instance path, so one lock key stands for one instance |
| Ids.ValidateResourceID | options.go:655-688 | Accepts exactly the grammar, and reports the first failing check and the first offending byte |
| Ids.ValidIdHasNoSlash | options.go:655-707 | Accepted IDs are nonblank and free of slashes |
| Ids.GenerateRandomID | options.go:766-773 | Whatever the generator draws, the ID is valid as a project, an instance and a database ID, and each of its characters is the one drawn for it |
| Ids.DrawsAreTold | options.go:756-760 | Different draws give different characters |

## Left out

- Container start, Docker and Podman providers, wait strategies, gRPC dialling and client options: foreign calls, represented by their outcomes.
- SQL, DDL and DML content, proto descriptors and transactions: handed over as they are; only success or failure matters to the protocol.
- JSON encoding: a parameter assumed to read what it writes.
- Image provenance, platform strings, endpoint lookup in the environment and the accessors: field copies and selections that would only add easy members.
- `ParseServeArgs` and `ParseStopArgs`, error texts, log output, testing helpers, the command line, and the deprecated `New*` functions.
- `RunEmulator` and `runOmni`, which start a runtime without clients: their `bootstrap` path records nothing that was created, and a failure terminates the container.
- Provision.OpenClients: a create that takes effect but reports an error is outside the model, because RPCs are atomic; the code does not record such a resource and would leak it.
- Provision.DropDatabaseWithRetry: one session at a time; waiting for another holder of the permit is an outcome of Acquire here, and its interleavings are in Sessions.
- Sessions.RunKeepsLock: timeouts are the nondeterministic failure of a step; the clock is only in Provision.
- Runtimes.CloseBothOwners: calls come one after another; concurrent callers are in CloseOnce.OverlappingOwners, where the decision whether to drop at all is one opaque effect.
- Lazy.LazySafety: what a start or a Close does inside, and whether it terminates, is the outside world's choice; context cancellation is one of the outcomes of start.
- Stop.StopFromConfig: the operating system does not reuse the process ID during a stop; the endpoint and PID files may come and go freely, but their paths do not alias.
- Serve.Serve: while it waits, others may remove files but not write any; a killed serve process, whose deferred functions never run, is not modelled; a runtime counts as closed once its Close was called, also if that failed.
- Serve.SaveEndpoint: directories are not modelled beyond the outcome of creating one, and a path stands for one file.
- OptionsRecords.OptionsRecord.ApplyOption: slices are values; an option value that the caller changes after passing it is not modelled.
- Stop.ResolvedPIDIsPositive: reading and parsing the files are parameters.
