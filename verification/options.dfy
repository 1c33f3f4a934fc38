/** The option algebra: options as ordered edits of one record, finalization for the
    emulator and for Omni, inheritance, and the attached runtime's shortcut
    (options.go, omni.go, runtime.go, attached.go).

    The functions here specify the methods of OptionsRecord (options_record.dfy); their
    laws are in option_laws.dfy. */
module Options {
  import opened Common
  import opened Ids

  const DEFAULT_EMULATOR_IMAGE := "gcr.io/cloud-spanner-emulator/emulator:1.5.58"
  const DEFAULT_PROJECT_ID := "emulator-project"
  const DEFAULT_INSTANCE_ID := "emulator-instance"
  const DEFAULT_DATABASE_ID := "emulator-database"
  const DEFAULT_OMNI_IMAGE := "us-docker.pkg.dev/spanner-omni/images/spanner-omni:2026.r4-lts"
  const DEFAULT_OMNI_PROJECT_ID := "default"
  const DEFAULT_OMNI_INSTANCE_ID := "default"

  datatype Backend = Emulator | Omni

  datatype Dialect = Unspecified | GoogleStandardSQL | PostgreSQL

  /** spanner.ClientConfig: the two fields this package sets, and the rest. */
  datatype ClientConfig = ClientConfig(disableNativeMetrics: bool, isExperimentalHost: bool, rest: int)

  datatype Provider = ProviderDefault | ProviderDocker | ProviderPodman

  datatype CustomizerRef = UseProvider(provider: Provider) | Custom(id: int)

  datatype GatewayFlag = Switch(name: string) | MaxDatabases(n: int) | TokenAliveSeconds(n: int)

  /** The provider environment variable: unset or blank, a recognised name, or
      anything else. */
  datatype ProviderEnv = Unset | Named(provider: Provider) | Unparseable

  /** The IDs the generator hands out in one finalization. */
  datatype Randoms = Randoms(project: string, instance: string, database: string) {
    predicate Valid() {
      RandomShape(project) && RandomShape(instance) && RandomShape(database)
    }
  }

  datatype GuardrailRule =
    | RandomProject
    | RandomInstance
    | FixedProject
    | FixedInstance
    | NoInstanceCreation
    | NoGatewayFlags

  datatype OptionError =
    | ProjectConflict
    | InstanceConflict
    | DatabaseConflict
    | InvalidId(kind: Kind)
    | BadProviderEnv
    | DescriptorsWithoutDDL
    | BadProvider
    | NotPositive
    | MarshalFailed
    | Guardrail(rule: GuardrailRule)

  datatype Opts = Opts(
    image: string,
    projectID: string,
    instanceID: string,
    databaseID: string,
    randomProjectID: bool,
    randomInstanceID: bool,
    randomDatabaseID: bool,
    randomDatabaseIDResolved: bool,
    disableCreateInstance: bool,
    disableCreateDatabase: bool,
    disableBackendGuardrails: bool,
    reuseExistingDatabase: bool,
    schemaTeardown: Option<bool>,
    databaseDialect: Dialect,
    setupDDLs: seq<string>,
    setupFileDescriptorSet: string,
    setupDMLs: seq<string>,
    clientConfig: Option<ClientConfig>,
    containerCustomizers: seq<CustomizerRef>,
    containerProviderSet: bool,
    clientOptionsForClient: seq<string>,
    gatewayFlags: seq<GatewayFlag>)

  /** &emulatorOptions{} */
  const ZERO := Opts("", "", "", "", false, false, false, false, false, false, false, false,
                     None, Unspecified, [], "", [], None, [], false, [], [])

  datatype ConfigOption =
    | WithContainerCustomizers(customizers: seq<CustomizerRef>)
    | WithContainerProvider(provider: Option<Provider>)
    | WithGatewaySwitch(name: string)
    | WithMaxDatabasesPerInstance(n: int)
    | WithChangeStreamPartitionTokenAliveSeconds(n: int)
    | WithClientOptionsForClient(clientOptions: seq<string>)
    | WithProjectID(id: string)
    | WithRandomProjectID
    | WithoutRandomProjectID
    | WithInstanceID(id: string)
    | WithRandomInstanceID
    | WithoutRandomInstanceID
    | WithDatabaseID(id: string)
    | WithRandomDatabaseID
    | WithoutRandomDatabaseID
    | WithDatabaseDialect(dialect: Dialect)
    | WithContainerImage(image: string)
    | DisableBackendGuardrails
    | WithClientConfig(config: ClientConfig)
    | WithSetupDDLs(ddls: seq<string>)
    | WithSetupFileDescriptorSet(marshaled: Option<string>)
    | WithSetupDMLs(dmls: seq<string>)
    | DisableAutoConfig
    | EnableAutoConfig
    | EnableInstanceAutoConfigOnly
    | EnableDatabaseAutoConfigOnly
    | ForceSchemaTeardown
    | SkipSchemaTeardown

  /** cmp.Or on strings. */
  function Or(s: string, fallback: string): string {
    if s != "" then s else fallback
  }

  // ------------------------------------------------------------------------
  // Applying options
  // ------------------------------------------------------------------------

  function ApplyDatabaseID(o: Opts, id: string): Opts {
    var moved := o.reuseExistingDatabase && Or(id, DEFAULT_DATABASE_ID) != Or(o.databaseID, DEFAULT_DATABASE_ID);
    o.(disableCreateDatabase := if moved then false else o.disableCreateDatabase,
       reuseExistingDatabase := false,
       randomDatabaseID := o.randomDatabaseID && !o.randomDatabaseIDResolved,
       randomDatabaseIDResolved := false,
       databaseID := id)
  }

  function AutoConfig(o: Opts, disableInstance: bool, disableDatabase: bool): Opts {
    o.(disableCreateInstance := disableInstance, disableCreateDatabase := disableDatabase,
        reuseExistingDatabase := false)
  }

  function ApplyRandomDatabase(o: Opts): Opts {
    o.(randomDatabaseID := true, randomDatabaseIDResolved := false, reuseExistingDatabase := false,
       databaseID := "", disableCreateDatabase := false)
  }

  predicate ProjectOption(c: ConfigOption) {
    c.WithProjectID? || c.WithRandomProjectID? || c.WithoutRandomProjectID?
  }

  predicate InstanceOption(c: ConfigOption) {
    c.WithInstanceID? || c.WithRandomInstanceID? || c.WithoutRandomInstanceID?
  }

  predicate DatabaseOption(c: ConfigOption) {
    c.WithDatabaseID? || c.WithRandomDatabaseID? || c.WithoutRandomDatabaseID?
  }

  predicate AutoConfigOption(c: ConfigOption) {
    c.DisableAutoConfig? || c.EnableAutoConfig? || c.EnableInstanceAutoConfigOnly? || c.EnableDatabaseAutoConfigOnly?
  }

  predicate ContainerOption(c: ConfigOption) {
    c.WithContainerCustomizers? || c.WithContainerProvider? || c.WithContainerImage?
  }

  predicate GatewayOption(c: ConfigOption) {
    c.WithGatewaySwitch? || c.WithMaxDatabasesPerInstance? || c.WithChangeStreamPartitionTokenAliveSeconds?
  }

  predicate ClientOption(c: ConfigOption) {
    c.WithClientOptionsForClient? || c.WithClientConfig?
  }

  predicate SchemaOption(c: ConfigOption) {
    c.WithSetupDDLs? || c.WithSetupFileDescriptorSet? || c.WithSetupDMLs?
  }

  predicate ModeOption(c: ConfigOption) {
    c.WithDatabaseDialect? || c.DisableBackendGuardrails? || c.ForceSchemaTeardown? || c.SkipSchemaTeardown?
  }

  /** The options that choose IDs and creation policy. */
  predicate ResourceOption(c: ConfigOption) {
    ProjectOption(c) || InstanceOption(c) || DatabaseOption(c) || AutoConfigOption(c)
  }

  function ApplyProject(o: Opts, c: ConfigOption): Opts
    requires ProjectOption(c)
  {
    match c
    case WithProjectID(id) => o.(projectID := id)
    case WithRandomProjectID => o.(randomProjectID := true, projectID := "")
    case WithoutRandomProjectID => o.(randomProjectID := false)
  }

  function ApplyInstance(o: Opts, c: ConfigOption): Opts
    requires InstanceOption(c)
  {
    match c
    case WithInstanceID(id) => o.(instanceID := id)
    case WithRandomInstanceID => o.(randomInstanceID := true, instanceID := "", disableCreateInstance := false)
    case WithoutRandomInstanceID => o.(randomInstanceID := false)
  }

  function ApplyDatabase(o: Opts, c: ConfigOption): Opts
    requires DatabaseOption(c)
  {
    match c
    case WithDatabaseID(id) => ApplyDatabaseID(o, id)
    case WithRandomDatabaseID => ApplyRandomDatabase(o)
    case WithoutRandomDatabaseID => o.(randomDatabaseID := false)
  }

  function ApplyAutoConfig(o: Opts, c: ConfigOption): Opts
    requires AutoConfigOption(c)
  {
    match c
    case DisableAutoConfig => AutoConfig(o, true, true)
    case EnableAutoConfig => AutoConfig(o, false, false)
    case EnableInstanceAutoConfigOnly => AutoConfig(o, false, true)
    case EnableDatabaseAutoConfigOnly => AutoConfig(o, true, false)
  }

  function ApplyContainer(o: Opts, c: ConfigOption): Result<Opts, OptionError>
    requires ContainerOption(c)
  {
    match c
    case WithContainerCustomizers(cs) => Ok(o.(containerCustomizers := o.containerCustomizers + cs))
    case WithContainerProvider(p) =>
      if p.None? then Err(BadProvider)
      else Ok(o.(containerProviderSet := true, containerCustomizers := o.containerCustomizers + [UseProvider(p.value)]))
    case WithContainerImage(image) => Ok(o.(image := Or(image, o.image)))
  }

  function ApplyGateway(o: Opts, c: ConfigOption): Result<Opts, OptionError>
    requires GatewayOption(c)
  {
    match c
    case WithGatewaySwitch(name) => Ok(o.(gatewayFlags := o.gatewayFlags + [Switch(name)]))
    case WithMaxDatabasesPerInstance(n) =>
      if n <= 0 then Err(NotPositive) else Ok(o.(gatewayFlags := o.gatewayFlags + [MaxDatabases(n)]))
    case WithChangeStreamPartitionTokenAliveSeconds(n) =>
      if n <= 0 then Err(NotPositive) else Ok(o.(gatewayFlags := o.gatewayFlags + [TokenAliveSeconds(n)]))
  }

  function ApplyClient(o: Opts, c: ConfigOption): Opts
    requires ClientOption(c)
  {
    match c
    case WithClientOptionsForClient(os) => o.(clientOptionsForClient := o.clientOptionsForClient + os)
    case WithClientConfig(config) => o.(clientConfig := Some(config))
  }

  function ApplySchema(o: Opts, c: ConfigOption): Result<Opts, OptionError>
    requires SchemaOption(c)
  {
    match c
    case WithSetupDDLs(ddls) => Ok(o.(setupDDLs := ddls))
    case WithSetupFileDescriptorSet(m) =>
      if m.None? then Err(MarshalFailed) else Ok(o.(setupFileDescriptorSet := m.value))
    case WithSetupDMLs(dmls) => Ok(o.(setupDMLs := dmls))
  }

  function WithTeardown(o: Opts, teardown: bool): Opts {
    o.(schemaTeardown := Some(teardown))
  }

  function ApplyMode(o: Opts, c: ConfigOption): Opts
    requires ModeOption(c)
  {
    match c
    case WithDatabaseDialect(d) => o.(databaseDialect := d)
    case DisableBackendGuardrails => o.(disableBackendGuardrails := true)
    case ForceSchemaTeardown => WithTeardown(o, true)
    case SkipSchemaTeardown => WithTeardown(o, false)
  }

  function Apply(o: Opts, c: ConfigOption): Result<Opts, OptionError> {
    if ProjectOption(c) then Ok(ApplyProject(o, c))
    else if InstanceOption(c) then Ok(ApplyInstance(o, c))
    else if DatabaseOption(c) then Ok(ApplyDatabase(o, c))
    else if AutoConfigOption(c) then Ok(ApplyAutoConfig(o, c))
    else if ContainerOption(c) then ApplyContainer(o, c)
    else if GatewayOption(c) then ApplyGateway(o, c)
    else if ClientOption(c) then Ok(ApplyClient(o, c))
    else if SchemaOption(c) then ApplySchema(o, c)
    else Ok(ApplyMode(o, c))
  }

  function ApplyAll(o: Opts, cs: seq<ConfigOption>): Result<Opts, OptionError>
    decreases |cs|
  {
    if cs == [] then Ok(o)
    else
      match Apply(o, cs[0])
      case Err(e) => Err(e)
      case Ok(next) => ApplyAll(next, cs[1..])
  }

  // ------------------------------------------------------------------------
  // Finalization
  // ------------------------------------------------------------------------

  function InvalidResource(o: Opts): Option<Kind> {
    if !ValidId(Kind.Project, o.projectID) then Some(Kind.Project)
    else if !ValidId(Kind.Instance, o.instanceID) then Some(Kind.Instance)
    else if !ValidId(Kind.Database, o.databaseID) then Some(Kind.Database)
    else None
  }

  function ApplyProviderEnv(o: Opts, env: ProviderEnv): Result<Opts, OptionError> {
    if o.containerProviderSet || env.Unset? then Ok(o)
    else if env.Unparseable? then Err(BadProviderEnv)
    else if env.provider == ProviderDefault then Ok(o)
    else Ok(o.(containerProviderSet := true,
        containerCustomizers := [UseProvider(env.provider)] + o.containerCustomizers))
  }

  predicate DescriptorsHaveWork(o: Opts) {
    o.setupFileDescriptorSet == "" || o.setupDDLs != [] || !o.disableCreateDatabase
  }

  predicate ProjectClash(o: Opts) {
    o.randomProjectID && o.projectID != ""
  }

  predicate InstanceClash(o: Opts) {
    o.randomInstanceID && o.instanceID != ""
  }

  predicate DatabaseClash(o: Opts) {
    o.randomDatabaseID && o.databaseID != "" && !o.randomDatabaseIDResolved
  }

  /** The random IDs a finalization fills in. */
  function Generate(o: Opts, rnd: Randoms): Opts {
    var fill := o.randomDatabaseID && !o.randomDatabaseIDResolved;
    o.(projectID := if o.randomProjectID then rnd.project else o.projectID,
       instanceID := if o.randomInstanceID then rnd.instance else o.instanceID,
       databaseID := if fill then rnd.database else o.databaseID,
       randomDatabaseIDResolved := fill || o.randomDatabaseIDResolved)
  }

  datatype Defaults = Defaults(image: string, project: string, instance: string)

  function DefaultsOf(backend: Backend): Defaults {
    if backend == Omni then Defaults(DEFAULT_OMNI_IMAGE, DEFAULT_OMNI_PROJECT_ID, DEFAULT_OMNI_INSTANCE_ID)
    else Defaults(DEFAULT_EMULATOR_IMAGE, DEFAULT_PROJECT_ID, DEFAULT_INSTANCE_ID)
  }

  function FillDefaults(backend: Backend, o: Opts): Opts {
    var d := DefaultsOf(backend);
    o.(image := Or(o.image, d.image), projectID := Or(o.projectID, d.project),
       instanceID := Or(o.instanceID, d.instance), databaseID := Or(o.databaseID, DEFAULT_DATABASE_ID))
  }

  const RECOMMENDED_OMNI_CLIENT_CONFIG := ClientConfig(true, true, 0)

  function ManagedOmniClientConfig(config: Option<ClientConfig>, disableBackendGuardrails: bool): ClientConfig {
    if config.None? then RECOMMENDED_OMNI_CLIENT_CONFIG
    else if disableBackendGuardrails then config.value
    else config.value.(disableNativeMetrics := true, isExperimentalHost := true)
  }

  function ClientConfigOf(backend: Backend, o: Opts): ClientConfig {
    if backend == Omni then ManagedOmniClientConfig(o.clientConfig, o.disableBackendGuardrails)
    else if o.clientConfig.None? then ClientConfig(true, false, 0)
    else o.clientConfig.value
  }

  function FillClientConfig(backend: Backend, o: Opts): Opts {
    o.(clientConfig := Some(ClientConfigOf(backend, o)))
  }

  /** The checks and defaults that both backends run last. */
  function Finish(backend: Backend, o: Opts, env: ProviderEnv): Result<Opts, OptionError> {
    var filled := FillDefaults(backend, o);
    match InvalidResource(filled)
    case Some(kind) => Err(InvalidId(kind))
    case None =>
      match ApplyProviderEnv(FillClientConfig(backend, filled), env)
      case Err(e) => Err(e)
      case Ok(done) => if DescriptorsHaveWork(done) then Ok(done) else Err(DescriptorsWithoutDDL)
  }

  function FinalizeEmulator(o: Opts, rnd: Randoms, env: ProviderEnv): Result<Opts, OptionError> {
    if ProjectClash(o) then Err(ProjectConflict)
    else if InstanceClash(o) then Err(InstanceConflict)
    else if DatabaseClash(o) then Err(DatabaseConflict)
    else Finish(Emulator, Generate(o, rnd), env)
  }

  /** The first guardrail a set of options violates, in the order of the checks. */
  function OmniGuardrail(o: Opts): Option<GuardrailRule> {
    if o.disableBackendGuardrails then None
    else if o.randomProjectID then Some(RandomProject)
    else if o.randomInstanceID then Some(RandomInstance)
    else if o.projectID != "" && o.projectID != DEFAULT_OMNI_PROJECT_ID then Some(FixedProject)
    else if o.instanceID != "" && o.instanceID != DEFAULT_OMNI_INSTANCE_ID then Some(FixedInstance)
    else if !o.disableCreateInstance then Some(NoInstanceCreation)
    else if o.gatewayFlags != [] then Some(NoGatewayFlags)
    else None
  }

  function FinalizeOmni(o: Opts, rnd: Randoms, env: ProviderEnv): Result<Opts, OptionError> {
    if ProjectClash(o) then Err(ProjectConflict)
    else if InstanceClash(o) then Err(InstanceConflict)
    else if OmniGuardrail(o).Some? then Err(Guardrail(OmniGuardrail(o).value))
    else if DatabaseClash(o) then Err(DatabaseConflict)
    else Finish(Omni, Generate(o, rnd), env)
  }

  function Finalize(backend: Backend, o: Opts, rnd: Randoms, env: ProviderEnv): Result<Opts, OptionError> {
    if backend == Omni then FinalizeOmni(o, rnd, env) else FinalizeEmulator(o, rnd, env)
  }

  function ApplyAndFinalize(backend: Backend, base: Opts, cs: seq<ConfigOption>, rnd: Randoms, env: ProviderEnv)
    : Result<Opts, OptionError>
  {
    match ApplyAll(base, cs)
    case Err(e) => Err(e)
    case Ok(o) => Finalize(backend, o, rnd, env)
  }

  // ------------------------------------------------------------------------
  // Inheritance
  // ------------------------------------------------------------------------

  function Inherited(o: Opts): Opts {
    ZERO.(projectID := o.projectID, instanceID := o.instanceID, databaseID := o.databaseID,
          databaseDialect := o.databaseDialect, disableCreateInstance := true, disableCreateDatabase := true,
          reuseExistingDatabase := true, clientConfig := o.clientConfig)
  }

  /** What omniRuntime hands on: also whether guardrails are off. */
  function InheritedOmni(o: Opts): Opts {
    Inherited(o).(disableBackendGuardrails := o.disableBackendGuardrails)
  }

  /** The base that a started runtime offers to OpenClients. */
  function InheritedBase(backend: Backend, o: Opts): Opts {
    if backend == Omni then InheritedOmni(o) else Inherited(o)
  }

  /** A slice is copied only if there is something in it. */
  function OrElse<T(==)>(s: seq<T>, fallback: seq<T>): seq<T> {
    if s != [] then s else fallback
  }

  function CopiedSetup(base: Opts, source: Opts): Opts {
    base.(clientOptionsForClient := OrElse(source.clientOptionsForClient, base.clientOptionsForClient),
          setupDDLs := OrElse(source.setupDDLs, base.setupDDLs),
          setupFileDescriptorSet := OrElse(source.setupFileDescriptorSet, base.setupFileDescriptorSet),
          setupDMLs := OrElse(source.setupDMLs, base.setupDMLs))
  }

  function CopiedModes(base: Opts, source: Opts): Opts {
    base.(disableCreateDatabase := base.disableCreateDatabase && source.disableCreateDatabase,
          randomDatabaseID := source.randomDatabaseID,
          randomDatabaseIDResolved := source.randomDatabaseIDResolved,
          schemaTeardown := source.schemaTeardown,
          disableBackendGuardrails := source.disableBackendGuardrails)
  }

  function PreserveBootstrap(base: Opts, source: Opts): Opts {
    CopiedSetup(CopiedModes(base, source), source)
  }

  /** The base an attached runtime offers to OpenClients. */
  function AttachedBase(source: Opts): Opts {
    PreserveBootstrap(Inherited(source), source)
  }

  /** NewAttachedRuntime's options for an endpoint. */
  function FinalizeAttached(backend: Backend, project: string, instance: string, cs: seq<ConfigOption>,
                            rnd: Randoms, env: ProviderEnv): Result<Opts, OptionError>
  {
    ApplyAndFinalize(backend, ZERO.(projectID := project, instanceID := instance, disableCreateInstance := true),
                     cs, rnd, env)
  }

  // ------------------------------------------------------------------------
  // Teardown policy
  // ------------------------------------------------------------------------

  predicate ShouldDropResource(o: Opts, disableCreate: bool, isRandomID: bool) {
    !disableCreate && (if o.schemaTeardown.Some? then o.schemaTeardown.value else !isRandomID)
  }

  predicate ShouldDropInstance(o: Opts) {
    ShouldDropResource(o, o.disableCreateInstance, o.randomInstanceID)
  }

  predicate ShouldDropDatabase(o: Opts) {
    ShouldDropResource(o, o.disableCreateDatabase, o.randomDatabaseID)
  }

  predicate ForcedTeardown(o: Opts) {
    o.schemaTeardown == Some(true)
  }
}
