/** The options struct itself, edited in place (options.go, omni.go, runtime.go,
    attached.go). Options run on its fields one assignment after the other; View is the
    value that the algebra of options.dfy works on. */
module OptionsRecords {
  import opened Common
  import opened Ids
  import opened Options
  import opened OptionLaws
  import opened OptionMeaning

  /** What a finalizer makes of a struct it accepts. */
  ghost predicate Settles(backend: Backend, before: Opts, after: Opts, env: ProviderEnv) {
    && InvalidResource(after) == None && SamePolicy(after, before)
    && (forall rnd: Randoms :: Finalize(backend, after, rnd, env) == Ok(after)
                          <==> !after.randomProjectID && !after.randomInstanceID)
  }

  lemma FinalizeSettles(backend: Backend, o: Opts, rnd: Randoms, env: ProviderEnv)
    ensures Finalize(backend, o, rnd, env).Ok? ==> Settles(backend, o, Finalize(backend, o, rnd, env).value, env)
  {
    if Finalize(backend, o, rnd, env).Ok? {
      var f := Finalize(backend, o, rnd, env).value;
      FinalizeFinishes(backend, o, rnd, env);
      FinishedShape(backend, Generate(o, rnd), env);
      FinalizeKeepsPolicy(backend, o, rnd, env);
      hide Finalize, SamePolicy, InvalidResource;
      forall rnd': Randoms
        ensures Finalize(backend, f, rnd', env) == Ok(f) <==> !f.randomProjectID && !f.randomInstanceID
      {
        RefinalizeExactly(backend, o, rnd, env, rnd');
      }
    }
  }

  lemma FinalizeMeans(backend: Backend, o: Opts, rnd: Randoms, env: ProviderEnv)
    requires Nonempty(rnd)
    ensures var f := Finalize(backend, o, rnd, env);
      && (f.Ok? ==> Verdict(backend, o, rnd, env).None? && FullySettled(backend, o, rnd, env, f.value))
      && (f.Err? ==> Verdict(backend, o, rnd, env) == Some(f.error))
  {
    FinalizeVerdict(backend, o, rnd, env);
    if Finalize(backend, o, rnd, env).Ok? {
      FinalizedRecord(backend, o, rnd, env);
    }
    hide Finalize, Verdict, FullySettled;
  }

  /** Err leaves the struct as it was. */
  ghost predicate Outcome(spec: Result<Opts, OptionError>, before: Opts, err: Option<OptionError>, after: Opts) {
    match spec
    case Ok(next) => err == None && after == next
    case Err(e) => err == Some(e) && after == before
  }

  /** Err leaves a struct that nobody uses. */
  ghost predicate Finalized(spec: Result<Opts, OptionError>, err: Option<OptionError>, after: Opts) {
    match spec
    case Ok(done) => err == None && after == done
    case Err(e) => err == Some(e)
  }

  lemma OptionSteps(o: Opts, c: ConfigOption)
    ensures Apply(o, c).Err? <==> RejectionOf(c).Some?
    ensures Apply(o, c).Err? ==> Some(Apply(o, c).error) == RejectionOf(c)
    ensures Apply(o, c).Ok? ==> SettingsOf(Apply(o, c).value) == Said(SettingsOf(o), c)
    ensures Apply(o, c).Ok? ==>
              forall kind: Kind :: SlotOf(kind, Apply(o, c).value) == SlotStep(SlotOf(kind, o), OpOf(kind, c))
    ensures Apply(o, c).Ok? ==> PolicyMove(o, c, Apply(o, c).value)
    ensures Apply(o, c).Ok? && !ResourceOption(c) ==> ResourcesOf(Apply(o, c).value) == ResourcesOf(o)
  {
    RejectedAlone(o, c);
    hide Apply, RejectionOf, SlotOf, OpOf, PolicyMove, ResourcesOf, SettingsOf, Said;
    if Apply(o, c).Ok? {
      OptionSays(o, c);
      forall kind: Kind ensures SlotOf(kind, Apply(o, c).value) == SlotStep(SlotOf(kind, o), OpOf(kind, c)) {
        ApplyMovesSlot(kind, o, c);
      }
      PolicyStep(o, c);
      if !ResourceOption(c) {
        OtherOptionsKeepResources(o, c);
      }
    }
  }

  /** *emulatorOptions. */
  class OptionsRecord {
    var image: string
    var projectID: string
    var instanceID: string
    var databaseID: string
    var randomProjectID: bool
    var randomInstanceID: bool
    var randomDatabaseID: bool
    var randomDatabaseIDResolved: bool
    var disableCreateInstance: bool
    var disableCreateDatabase: bool
    var disableBackendGuardrails: bool
    var reuseExistingDatabase: bool
    var schemaTeardown: Option<bool>
    var databaseDialect: Dialect
    var setupDDLs: seq<string>
    var setupFileDescriptorSet: string
    var setupDMLs: seq<string>
    var clientConfig: Option<ClientConfig>
    var containerCustomizers: seq<CustomizerRef>
    var containerProviderSet: bool
    var clientOptionsForClient: seq<string>
    var gatewayFlags: seq<GatewayFlag>

    function View(): Opts
      reads this
    {
      Opts(image, projectID, instanceID, databaseID, randomProjectID, randomInstanceID, randomDatabaseID,
           randomDatabaseIDResolved, disableCreateInstance, disableCreateDatabase, disableBackendGuardrails,
           reuseExistingDatabase, schemaTeardown, databaseDialect, setupDDLs, setupFileDescriptorSet, setupDMLs,
           clientConfig, containerCustomizers, containerProviderSet, clientOptionsForClient, gatewayFlags)
    }

    /** A composite literal. */
    constructor (o: Opts)
      ensures View() == o
    {
      image, projectID, instanceID, databaseID := o.image, o.projectID, o.instanceID, o.databaseID;
      randomProjectID, randomInstanceID := o.randomProjectID, o.randomInstanceID;
      randomDatabaseID, randomDatabaseIDResolved := o.randomDatabaseID, o.randomDatabaseIDResolved;
      disableCreateInstance, disableCreateDatabase := o.disableCreateInstance, o.disableCreateDatabase;
      disableBackendGuardrails, reuseExistingDatabase := o.disableBackendGuardrails, o.reuseExistingDatabase;
      schemaTeardown, databaseDialect := o.schemaTeardown, o.databaseDialect;
      setupDDLs, setupFileDescriptorSet, setupDMLs := o.setupDDLs, o.setupFileDescriptorSet, o.setupDMLs;
      clientConfig, containerCustomizers := o.clientConfig, o.containerCustomizers;
      containerProviderSet, clientOptionsForClient := o.containerProviderSet, o.clientOptionsForClient;
      gatewayFlags := o.gatewayFlags;
    }

    /** opts := *base */
    constructor Copy(base: OptionsRecord)
      ensures View() == base.View()
    {
      image, projectID, instanceID, databaseID := base.image, base.projectID, base.instanceID, base.databaseID;
      randomProjectID, randomInstanceID := base.randomProjectID, base.randomInstanceID;
      randomDatabaseID, randomDatabaseIDResolved := base.randomDatabaseID, base.randomDatabaseIDResolved;
      disableCreateInstance, disableCreateDatabase := base.disableCreateInstance, base.disableCreateDatabase;
      disableBackendGuardrails, reuseExistingDatabase := base.disableBackendGuardrails, base.reuseExistingDatabase;
      schemaTeardown, databaseDialect := base.schemaTeardown, base.databaseDialect;
      setupDDLs, setupFileDescriptorSet, setupDMLs := base.setupDDLs, base.setupFileDescriptorSet, base.setupDMLs;
      clientConfig, containerCustomizers := base.clientConfig, base.containerCustomizers;
      containerProviderSet, clientOptionsForClient := base.containerProviderSet, base.clientOptionsForClient;
      gatewayFlags := base.gatewayFlags;
    }

    /** What WithDatabaseID does before it sets the ID: creation comes back on if another
        database than the inherited one is named, and a resolved random ID is given up. */
    method LeaveInheritedDatabase(id: string)
      modifies this`disableCreateDatabase, this`reuseExistingDatabase, this`randomDatabaseID
      modifies this`randomDatabaseIDResolved
      ensures disableCreateDatabase ==
                (old(disableCreateDatabase) && (old(reuseExistingDatabase) ==> NamesSameDatabase(id, databaseID)))
      ensures !reuseExistingDatabase
      ensures randomDatabaseID == (old(randomDatabaseID) && !old(randomDatabaseIDResolved)) && !randomDatabaseIDResolved
    {
      var currentDatabaseID := Or(databaseID, DEFAULT_DATABASE_ID);
      var targetDatabaseID := Or(id, DEFAULT_DATABASE_ID);
      if reuseExistingDatabase && targetDatabaseID != currentDatabaseID {
        disableCreateDatabase := false;
      }
      reuseExistingDatabase := false;
      if randomDatabaseIDResolved {
        randomDatabaseID := false;
        randomDatabaseIDResolved := false;
      }
    }

    method SetDatabaseID(id: string)
      modifies this`disableCreateDatabase, this`reuseExistingDatabase, this`randomDatabaseID
      modifies this`randomDatabaseIDResolved, this`databaseID
      ensures View() == ApplyDatabaseID(old(View()), id)
    {
      hide Or;
      LeaveInheritedDatabase(id);
      databaseID := id;
    }

    method EditProject(c: ConfigOption)
      requires ProjectOption(c)
      modifies this`projectID, this`randomProjectID
      ensures View() == ApplyProject(old(View()), c)
    {
      match c
      case WithProjectID(id) => projectID := id;
      case WithRandomProjectID =>
        randomProjectID := true;
        projectID := "";
      case WithoutRandomProjectID => randomProjectID := false;
    }

    method ForgetInstanceID()
      modifies this`randomInstanceID, this`instanceID
      ensures randomInstanceID && instanceID == ""
    {
      randomInstanceID := true;
      instanceID := "";
    }

    method EditInstance(c: ConfigOption)
      requires InstanceOption(c)
      modifies this`instanceID, this`randomInstanceID, this`disableCreateInstance
      ensures View() == ApplyInstance(old(View()), c)
    {
      match c
      case WithInstanceID(id) => instanceID := id;
      case WithRandomInstanceID =>
        ForgetInstanceID();
        disableCreateInstance := false;
      case WithoutRandomInstanceID => randomInstanceID := false;
    }

    method ForgetDatabaseID()
      modifies this`reuseExistingDatabase, this`randomDatabaseID, this`randomDatabaseIDResolved, this`databaseID
      ensures databaseID == "" && randomDatabaseID && !randomDatabaseIDResolved && !reuseExistingDatabase
    {
      randomDatabaseID := true;
      randomDatabaseIDResolved := false;
      reuseExistingDatabase := false;
      databaseID := "";
    }

    method SetRandomDatabaseID()
      modifies this`disableCreateDatabase, this`reuseExistingDatabase, this`randomDatabaseID
      modifies this`randomDatabaseIDResolved, this`databaseID
      ensures View() == ApplyRandomDatabase(old(View()))
    {
      ForgetDatabaseID();
      disableCreateDatabase := false;
    }

    method EditDatabase(c: ConfigOption)
      requires DatabaseOption(c)
      modifies this`disableCreateDatabase, this`reuseExistingDatabase, this`randomDatabaseID
      modifies this`randomDatabaseIDResolved, this`databaseID
      ensures View() == ApplyDatabase(old(View()), c)
    {
      hide ApplyDatabaseID, ApplyRandomDatabase;
      match c
      case WithDatabaseID(id) => SetDatabaseID(id);
      case WithRandomDatabaseID => SetRandomDatabaseID();
      case WithoutRandomDatabaseID => randomDatabaseID := false;
    }

    method SetAutoConfig(disableInstance: bool, disableDatabase: bool)
      modifies this`disableCreateInstance, this`disableCreateDatabase, this`reuseExistingDatabase
      ensures View() == AutoConfig(old(View()), disableInstance, disableDatabase)
    {
      disableCreateInstance := disableInstance;
      disableCreateDatabase := disableDatabase;
      reuseExistingDatabase := false;
    }

    method EditAutoConfig(c: ConfigOption)
      requires AutoConfigOption(c)
      modifies this`disableCreateInstance, this`disableCreateDatabase, this`reuseExistingDatabase
      ensures View() == ApplyAutoConfig(old(View()), c)
    {
      hide AutoConfig, View;
      match c
      case DisableAutoConfig => SetAutoConfig(true, true);
      case EnableAutoConfig => SetAutoConfig(false, false);
      case EnableInstanceAutoConfigOnly => SetAutoConfig(false, true);
      case EnableDatabaseAutoConfigOnly => SetAutoConfig(true, false);
    }

    method EditContainer(c: ConfigOption) returns (err: Option<OptionError>)
      requires ContainerOption(c)
      modifies this`containerCustomizers, this`containerProviderSet, this`image
      ensures Outcome(ApplyContainer(old(View()), c), old(View()), err, View())
    {
      err := None;
      match c
      case WithContainerCustomizers(cs) => containerCustomizers := containerCustomizers + cs;
      case WithContainerProvider(p) =>
        if p.None? {
          return Some(BadProvider);
        }
        containerProviderSet := true;
        containerCustomizers := containerCustomizers + [UseProvider(p.value)];
      case WithContainerImage(name) =>
        if name != "" {
          image := name;
        }
    }

    method EditGateway(c: ConfigOption) returns (err: Option<OptionError>)
      requires GatewayOption(c)
      modifies this`gatewayFlags
      ensures Outcome(ApplyGateway(old(View()), c), old(View()), err, View())
    {
      err := None;
      match c
      case WithGatewaySwitch(name) => gatewayFlags := gatewayFlags + [Switch(name)];
      case WithMaxDatabasesPerInstance(n) =>
        if n <= 0 {
          return Some(NotPositive);
        }
        gatewayFlags := gatewayFlags + [MaxDatabases(n)];
      case WithChangeStreamPartitionTokenAliveSeconds(n) =>
        if n <= 0 {
          return Some(NotPositive);
        }
        gatewayFlags := gatewayFlags + [TokenAliveSeconds(n)];
    }

    method EditClient(c: ConfigOption)
      requires ClientOption(c)
      modifies this`clientOptionsForClient, this`clientConfig
      ensures View() == ApplyClient(old(View()), c)
    {
      match c
      case WithClientOptionsForClient(os) => clientOptionsForClient := clientOptionsForClient + os;
      case WithClientConfig(config) => clientConfig := Some(config);
    }

    method EditSchema(c: ConfigOption) returns (err: Option<OptionError>)
      requires SchemaOption(c)
      modifies this`setupDDLs, this`setupFileDescriptorSet, this`setupDMLs
      ensures Outcome(ApplySchema(old(View()), c), old(View()), err, View())
    {
      err := None;
      match c
      case WithSetupDDLs(ddls) => setupDDLs := ddls;
      case WithSetupFileDescriptorSet(m) =>
        if m.None? {
          return Some(MarshalFailed);
        }
        setupFileDescriptorSet := m.value;
      case WithSetupDMLs(dmls) => setupDMLs := dmls;
    }

    method SetTeardown(teardown: bool)
      modifies this`schemaTeardown
      ensures View() == WithTeardown(old(View()), teardown)
    {
      schemaTeardown := Some(teardown);
    }

    method EditMode(c: ConfigOption)
      requires ModeOption(c)
      modifies this`databaseDialect, this`disableBackendGuardrails, this`schemaTeardown
      ensures View() == ApplyMode(old(View()), c)
    {
      hide WithTeardown;
      match c
      case WithDatabaseDialect(d) => databaseDialect := d;
      case DisableBackendGuardrails => disableBackendGuardrails := true;
      case ForceSchemaTeardown => SetTeardown(true);
      case SkipSchemaTeardown => SetTeardown(false);
    }

    /** One option. Whether it is rejected, and with which error, depends on the option
        alone, and then the struct is untouched; otherwise each ID with its flags makes the
        step of the option, so do the creation switch and all other settings, and options
        that are not about IDs or creation leave all of that alone. */
    method ApplyOption(c: ConfigOption) returns (err: Option<OptionError>)
      modifies this
      ensures Outcome(Apply(old(View()), c), old(View()), err, View())
      ensures err == RejectionOf(c)
      ensures err.None? ==> SettingsOf(View()) == Said(SettingsOf(old(View())), c)
      ensures err.None? ==>
                forall kind: Kind :: SlotOf(kind, View()) == SlotStep(SlotOf(kind, old(View())), OpOf(kind, c))
      ensures err.None? ==> PolicyMove(old(View()), c, View())
      ensures !ResourceOption(c) ==> ResourcesOf(View()) == ResourcesOf(old(View()))
    {
      OptionSteps(View(), c);
      hide View, ApplyProject, ApplyInstance, ApplyDatabase, ApplyAutoConfig;
      hide ApplyContainer, ApplyGateway, ApplyClient, ApplySchema, ApplyMode;
      hide SlotOf, OpOf, PolicyMove, ResourcesOf, RejectionOf, SettingsOf, Said;
      err := None;
      if ProjectOption(c) {
        EditProject(c);
      } else if InstanceOption(c) {
        EditInstance(c);
      } else if DatabaseOption(c) {
        EditDatabase(c);
      } else if AutoConfigOption(c) {
        EditAutoConfig(c);
      } else if ContainerOption(c) {
        err := EditContainer(c);
      } else if GatewayOption(c) {
        err := EditGateway(c);
      } else if ClientOption(c) {
        EditClient(c);
      } else if SchemaOption(c) {
        err := EditSchema(c);
      } else {
        EditMode(c);
      }
    }

    /** The provider variable: an error only if no option has set a provider and the
        variable cannot be parsed. The customizers of the options stay, behind a provider
        taken from the variable, and a second run changes nothing. */
    method ApplyContainerProviderEnv(env: ProviderEnv) returns (err: Option<OptionError>)
      modifies this`containerCustomizers, this`containerProviderSet
      ensures Outcome(ApplyProviderEnv(old(View()), env), old(View()), err, View())
      ensures err.Some? <==> !old(containerProviderSet) && env.Unparseable?
      ensures old(containerCustomizers) <= containerCustomizers
                || containerCustomizers[1..] == old(containerCustomizers)
      ensures err.None? ==> ApplyProviderEnv(View(), env) == Ok(View())
    {
      if containerProviderSet {
        return None;
      }
      match env
      case Unset => return None;
      case Unparseable => return Some(BadProviderEnv);
      case Named(provider) =>
        if provider == ProviderDefault {
          return None;
        }
        containerProviderSet := true;
        containerCustomizers := [UseProvider(provider)] + containerCustomizers;
        return None;
    }

    method FillDefaultIDs(backend: Backend)
      modifies this`projectID, this`instanceID, this`databaseID
      ensures projectID == Or(old(projectID), DefaultsOf(backend).project)
      ensures instanceID == Or(old(instanceID), DefaultsOf(backend).instance)
      ensures databaseID == Or(old(databaseID), DEFAULT_DATABASE_ID)
    {
      var d := DefaultsOf(backend);
      projectID := Or(projectID, d.project);
      instanceID := Or(instanceID, d.instance);
      databaseID := Or(databaseID, DEFAULT_DATABASE_ID);
    }

    method FillDefaultValues(backend: Backend)
      modifies this`image, this`projectID, this`instanceID, this`databaseID
      ensures View() == FillDefaults(backend, old(View()))
    {
      hide Or, DefaultsOf;
      image := Or(image, DefaultsOf(backend).image);
      FillDefaultIDs(backend);
    }

    method FillClientConfiguration(backend: Backend)
      modifies this`clientConfig
      ensures View() == FillClientConfig(backend, old(View()))
    {
      if backend == Omni {
        clientConfig := Some(ManagedOmniClientConfig(clientConfig, disableBackendGuardrails));
      } else if clientConfig.None? {
        clientConfig := Some(ClientConfig(true, false, 0));
      }
    }

    /** validateResourceIDs: project, then instance, then database. */
    method ValidateResourceIDs() returns (err: Option<OptionError>)
      ensures err == (match InvalidResource(View()) case Some(kind) => Some(InvalidId(kind)) case None => None)
      ensures err.None? <==> ValidId(Kind.Project, projectID) && ValidId(Kind.Instance, instanceID)
                               && ValidId(Kind.Database, databaseID)
    {
      var invalid := ValidateResourceID(Kind.Project, projectID);
      if invalid.Some? {
        return Some(InvalidId(Kind.Project));
      }
      invalid := ValidateResourceID(Kind.Instance, instanceID);
      if invalid.Some? {
        return Some(InvalidId(Kind.Instance));
      }
      invalid := ValidateResourceID(Kind.Database, databaseID);
      return if invalid.Some? then Some(InvalidId(Kind.Database)) else None;
    }

    method ValidateSetupFileDescriptorSet() returns (err: Option<OptionError>)
      ensures err == if DescriptorsHaveWork(View()) then None else Some(DescriptorsWithoutDDL)
    {
      if |setupFileDescriptorSet| > 0 && |setupDDLs| == 0 && disableCreateDatabase {
        return Some(DescriptorsWithoutDDL);
      }
      return None;
    }

    /** The common end of both finalizers. The finished struct has valid IDs and is a
        fixed point of this method; policy and set-up work are as before. */
    method FinishOptions(backend: Backend, env: ProviderEnv) returns (err: Option<OptionError>)
      modifies this
      ensures Finalized(Finish(backend, old(View()), env), err, View())
      ensures err.None? ==> InvalidResource(View()) == None && Finish(backend, View(), env) == Ok(View())
      ensures err.None? ==> SamePolicy(View(), old(View()))
    {
      ghost var before := View();
      if Finish(backend, before, env).Ok? {
        FinishedShape(backend, before, env);
        FinishIdempotent(backend, before, env);
        FinishKeepsPolicy(backend, before, env);
      }
      hide View, FillDefaults, FillClientConfig, InvalidResource, ApplyProviderEnv, SamePolicy;
      FillDefaultValues(backend);
      err := ValidateResourceIDs();
      if err.None? {
        FillClientConfiguration(backend);
        err := ApplyContainerProviderEnv(env);
        if err.None? {
          err := ValidateSetupFileDescriptorSet();
        }
      }
    }

    method GenerateDatabaseID(id: string)
      modifies this`databaseID, this`randomDatabaseIDResolved
      ensures databaseID == if randomDatabaseID && !old(randomDatabaseIDResolved) then id else old(databaseID)
      ensures randomDatabaseIDResolved == (randomDatabaseID || old(randomDatabaseIDResolved))
    {
      if randomDatabaseID && !randomDatabaseIDResolved {
        databaseID := id;
        randomDatabaseIDResolved := true;
      }
    }

    method GenerateIDs(rnd: Randoms)
      modifies this`projectID, this`instanceID, this`databaseID, this`randomDatabaseIDResolved
      ensures View() == Generate(old(View()), rnd)
    {
      if randomProjectID {
        projectID := rnd.project;
      }
      if randomInstanceID {
        instanceID := rnd.instance;
      }
      GenerateDatabaseID(rnd.database);
    }

    /** finalizeOptions. What it accepts has valid IDs and keeps its policy; finalizing it
        again gives it back exactly if neither its project nor its instance ID is random. */
    method FinalizeEmulatorOptions(rnd: Randoms, env: ProviderEnv) returns (err: Option<OptionError>)
      modifies this
      ensures Finalized(FinalizeEmulator(old(View()), rnd, env), err, View())
      ensures err.None? ==> Settles(Emulator, old(View()), View(), env)
      ensures Nonempty(rnd) ==> err == Verdict(Emulator, old(View()), rnd, env)
      ensures Nonempty(rnd) && err.None? ==> FullySettled(Emulator, old(View()), rnd, env, View())
    {
      ghost var before := View();
      FinalizeSettles(Emulator, before, rnd, env);
      if Nonempty(rnd) {
        FinalizeMeans(Emulator, before, rnd, env);
      }
      hide Finish, Generate, Settles, Verdict, FullySettled;
      if randomProjectID && projectID != "" {
        return Some(ProjectConflict);
      }
      if randomInstanceID && instanceID != "" {
        return Some(InstanceConflict);
      }
      if randomDatabaseID && databaseID != "" && !randomDatabaseIDResolved {
        return Some(DatabaseConflict);
      }
      hide View;
      GenerateIDs(rnd);
      err := FinishOptions(Emulator, env);
    }

    /** finalizeOmniOptions, with the same guarantees. */
    method FinalizeOmniOptions(rnd: Randoms, env: ProviderEnv) returns (err: Option<OptionError>)
      modifies this
      ensures Finalized(FinalizeOmni(old(View()), rnd, env), err, View())
      ensures err.None? ==> Settles(Omni, old(View()), View(), env)
      ensures Nonempty(rnd) ==> err == Verdict(Omni, old(View()), rnd, env)
      ensures Nonempty(rnd) && err.None? ==> FullySettled(Omni, old(View()), rnd, env, View())
    {
      ghost var before := View();
      FinalizeSettles(Omni, before, rnd, env);
      if Nonempty(rnd) {
        FinalizeMeans(Omni, before, rnd, env);
      }
      hide Finish, Generate, Settles, Verdict, FullySettled;
      if randomProjectID && projectID != "" {
        return Some(ProjectConflict);
      }
      if randomInstanceID && instanceID != "" {
        return Some(InstanceConflict);
      }
      if randomProjectID && !disableBackendGuardrails {
        return Some(Guardrail(RandomProject));
      }
      if randomInstanceID && !disableBackendGuardrails {
        return Some(Guardrail(RandomInstance));
      }
      if !disableBackendGuardrails && projectID != "" && projectID != DEFAULT_OMNI_PROJECT_ID {
        return Some(Guardrail(FixedProject));
      }
      if !disableBackendGuardrails && instanceID != "" && instanceID != DEFAULT_OMNI_INSTANCE_ID {
        return Some(Guardrail(FixedInstance));
      }
      if !disableCreateInstance && !disableBackendGuardrails {
        return Some(Guardrail(NoInstanceCreation));
      }
      if |gatewayFlags| > 0 && !disableBackendGuardrails {
        return Some(Guardrail(NoGatewayFlags));
      }
      if randomDatabaseID && databaseID != "" && !randomDatabaseIDResolved {
        return Some(DatabaseConflict);
      }
      hide View;
      GenerateIDs(rnd);
      err := FinishOptions(Omni, env);
    }

    /** inheritedRuntimeOptions: a fresh struct on which no ID is both explicit and still
        to be generated, with all creation and forced teardown off. */
    method InheritedRuntimeOptions() returns (base: OptionsRecord)
      ensures fresh(base) && base.View() == Inherited(View())
      ensures OpensNothing(base.View())
    {
      base := new OptionsRecord(ZERO.(projectID := projectID, instanceID := instanceID, databaseID := databaseID,
                                      databaseDialect := databaseDialect, disableCreateInstance := true,
                                      disableCreateDatabase := true, reuseExistingDatabase := true));
      if clientConfig.Some? {
        base.clientConfig := Some(clientConfig.value);
      }
      assert base.View() == Inherited(View());
      hide View, Inherited, OpensNothing;
      InheritedBasesReuse(Emulator, View());
    }

    method AssignModes(source: Opts)
      modifies this`disableCreateDatabase, this`randomDatabaseID, this`randomDatabaseIDResolved
      modifies this`schemaTeardown, this`disableBackendGuardrails
      ensures disableCreateDatabase == (old(disableCreateDatabase) && source.disableCreateDatabase)
      ensures randomDatabaseID == source.randomDatabaseID && randomDatabaseIDResolved == source.randomDatabaseIDResolved
      ensures schemaTeardown == source.schemaTeardown && disableBackendGuardrails == source.disableBackendGuardrails
    {
      if !source.disableCreateDatabase {
        disableCreateDatabase := false;
      }
      randomDatabaseID, randomDatabaseIDResolved := source.randomDatabaseID, source.randomDatabaseIDResolved;
      schemaTeardown, disableBackendGuardrails := source.schemaTeardown, source.disableBackendGuardrails;
    }

    method AssignSetup(source: Opts)
      modifies this`clientOptionsForClient, this`setupDDLs, this`setupFileDescriptorSet, this`setupDMLs
      ensures clientOptionsForClient == OrElse(source.clientOptionsForClient, old(clientOptionsForClient))
      ensures setupDDLs == OrElse(source.setupDDLs, old(setupDDLs))
      ensures setupFileDescriptorSet == OrElse(source.setupFileDescriptorSet, old(setupFileDescriptorSet))
      ensures setupDMLs == OrElse(source.setupDMLs, old(setupDMLs))
    {
      if |source.clientOptionsForClient| > 0 {
        clientOptionsForClient := source.clientOptionsForClient;
      }
      if |source.setupDDLs| > 0 {
        setupDDLs := source.setupDDLs;
      }
      if |source.setupFileDescriptorSet| > 0 {
        setupFileDescriptorSet := source.setupFileDescriptorSet;
      }
      if |source.setupDMLs| > 0 {
        setupDMLs := source.setupDMLs;
      }
    }

    method CopyModes(source: Opts)
      modifies this`disableCreateDatabase, this`randomDatabaseID, this`randomDatabaseIDResolved
      modifies this`schemaTeardown, this`disableBackendGuardrails
      ensures View() == CopiedModes(old(View()), source)
    {
      AssignModes(source);
    }

    method CopySetup(source: Opts)
      modifies this`clientOptionsForClient, this`setupDDLs, this`setupFileDescriptorSet, this`setupDMLs
      ensures View() == CopiedSetup(old(View()), source)
    {
      hide OrElse;
      AssignSetup(source);
    }

    /** preserveAttachedBootstrapOptions, with this struct as the base. */
    method PreserveAttachedBootstrapOptions(source: OptionsRecord)
      requires source != this
      modifies this
      ensures View() == PreserveBootstrap(old(View()), source.View())
    {
      hide View, CopiedModes, CopiedSetup;
      var from := source.View();
      CopyModes(from);
      CopySetup(from);
    }
  }

  /** The loop over the options, which stops at the first one that is rejected. */
  method ApplyOptions(opts: OptionsRecord, cs: seq<ConfigOption>) returns (err: Option<OptionError>)
    modifies opts
    ensures Finalized(ApplyAll(old(opts.View()), cs), err, opts.View())
  {
    hide OptionsRecord.View, Apply, PolicyMove, SlotOf, OpOf, ResourcesOf, RejectionOf, SettingsOf, Said;
    err := None;
    var i := 0;
    while i < |cs|
      invariant 0 <= i <= |cs| && err == None
      invariant ApplyAll(old(opts.View()), cs) == ApplyAll(opts.View(), cs[i..])
    {
      assert cs[i..][0] == cs[i] && cs[i..][1..] == cs[i + 1..];
      err := opts.ApplyOption(cs[i]);
      if err.Some? {
        return;
      }
      i := i + 1;
    }
    assert cs[i..] == [];
  }

  lemma CreationPolicyIfReopened(backend: Backend, b: Opts, cs: seq<ConfigOption>, rnd: Randoms, env: ProviderEnv)
    ensures b.disableCreateDatabase && b.reuseExistingDatabase && ApplyAndFinalize(backend, b, cs, rnd, env).Ok? ==>
              ReopenPolicy(b, cs, ApplyAndFinalize(backend, b, cs, rnd, env).value)
  {
    hide ReopenPolicy, Finalize;
    if b.disableCreateDatabase && b.reuseExistingDatabase && ApplyAndFinalize(backend, b, cs, rnd, env).Ok? {
      CreationPolicy(backend, b, cs, rnd, env);
    }
  }

  /** What comes out of a list of options: the IDs, the settings and the instance switch, and
      on a base that reuses its database also the creation switch of databases. */
  ghost predicate ListMeans(backend: Backend, base: Opts, cs: seq<ConfigOption>, rnd: Randoms, f: Opts) {
    && SettingsMeant(base, cs, f)
    && (SettledBase(base) && Nonempty(rnd) ==> IDsMeant(backend, base, cs, rnd, f))
    && PolicyMeant(base, cs, f)
    && (base.disableCreateDatabase && base.reuseExistingDatabase ==> ReopenPolicy(base, cs, f))
  }

  lemma FinalListMeans(backend: Backend, b: Opts, cs: seq<ConfigOption>, rnd: Randoms, env: ProviderEnv)
    requires ApplyAndFinalize(backend, b, cs, rnd, env).Ok?
    ensures ListMeans(backend, b, cs, rnd, ApplyAndFinalize(backend, b, cs, rnd, env).value)
  {
    FinalSettingsMeant(backend, b, cs, rnd, env);
    FinalPolicyMeant(backend, b, cs, rnd, env);
    CreationPolicyIfReopened(backend, b, cs, rnd, env);
    hide ApplyAndFinalize, SettingsMeant, PolicyMeant, IDsMeant, ReopenPolicy;
    if SettledBase(b) && Nonempty(rnd) {
      FinalIDsMeant(backend, b, cs, rnd, env);
    }
  }

  lemma FinalListMeansIfOk(backend: Backend, b: Opts, cs: seq<ConfigOption>, rnd: Randoms, env: ProviderEnv)
    ensures ApplyAndFinalize(backend, b, cs, rnd, env).Ok? ==>
              ListMeans(backend, b, cs, rnd, ApplyAndFinalize(backend, b, cs, rnd, env).value)
  {
    hide ApplyAndFinalize, ListMeans;
    if ApplyAndFinalize(backend, b, cs, rnd, env).Ok? {
      FinalListMeans(backend, b, cs, rnd, env);
    }
  }

  /** applyOptionsWithBase and applyOmniOptionsWithBase: the base is copied, the
      options run in order on the copy, and the copy is finalized. What comes out follows
      from the list and the base by closed forms. */
  method ApplyWithBase(backend: Backend, base: OptionsRecord, cs: seq<ConfigOption>, rnd: Randoms, env: ProviderEnv)
    returns (opts: OptionsRecord, err: Option<OptionError>)
    ensures fresh(opts)
    ensures Finalized(ApplyAndFinalize(backend, base.View(), cs, rnd, env), err, opts.View())
    ensures err.None? ==> ListMeans(backend, base.View(), cs, rnd, opts.View())
  {
    FinalListMeansIfOk(backend, base.View(), cs, rnd, env);
    hide OptionsRecord.View, ApplyAll, FinalizeEmulator, FinalizeOmni, ListMeans, Settles, Verdict, FullySettled;
    opts := new OptionsRecord.Copy(base);
    err := ApplyOptions(opts, cs);
    if err.Some? {
      return;
    }
    if backend == Omni {
      err := opts.FinalizeOmniOptions(rnd, env);
    } else {
      err := opts.FinalizeEmulatorOptions(rnd, env);
    }
  }

  /** The inheritedOptions of Emulator and omniRuntime, whose options these are. */
  method InheritedOptions(own: OptionsRecord, backend: Backend, cs: seq<ConfigOption>, rnd: Randoms, env: ProviderEnv)
    returns (opts: OptionsRecord, err: Option<OptionError>)
    ensures fresh(opts)
    ensures Finalized(ApplyAndFinalize(backend, InheritedBase(backend, own.View()), cs, rnd, env), err, opts.View())
    ensures err.None? ==> ListMeans(backend, InheritedBase(backend, own.View()), cs, rnd, opts.View())
    ensures err.None? ==> ReopenPolicy(InheritedBase(backend, own.View()), cs, opts.View())
  {
    var base := own.InheritedRuntimeOptions();
    if backend == Omni {
      base.disableBackendGuardrails := own.disableBackendGuardrails;
    }
    assert base.View() == InheritedBase(backend, own.View());
    InheritedBasesReuse(backend, own.View());
    hide OptionsRecord.View, ReopenPolicy, SettingsMeant, IDsMeant, PolicyMeant;
    opts, err := ApplyWithBase(backend, base, cs, rnd, env);
  }

  /** AttachedRuntime.inheritedOptions: without options the base is returned as it is,
      otherwise it goes through the backend's finalizer. The base keeps all of the
      runtime's options but the container settings, the image, two random flags and
      instance creation. */
  method AttachedInheritedOptions(own: OptionsRecord, backend: Backend, cs: seq<ConfigOption>,
                                  rnd: Randoms, env: ProviderEnv)
    returns (opts: OptionsRecord, err: Option<OptionError>)
    ensures fresh(opts)
    ensures cs == [] ==> err == None && opts.View() == AttachedClosedForm(own.View())
    ensures cs != [] ==>
              && Finalized(ApplyAndFinalize(backend, AttachedClosedForm(own.View()), cs, rnd, env), err, opts.View())
              && (err.None? ==> ListMeans(backend, AttachedClosedForm(own.View()), cs, rnd, opts.View()))
  {
    opts := own.InheritedRuntimeOptions();
    opts.PreserveAttachedBootstrapOptions(own);
    AttachedBaseClosedForm(own.View());
    hide OptionsRecord.View, PreserveBootstrap, Inherited, AttachedClosedForm, ListMeans;
    if |cs| == 0 {
      return opts, None;
    }
    opts, err := ApplyWithBase(backend, opts, cs, rnd, env);
  }
}
