/** What options and finalization mean, in terms of single options and single fields: which
    option of a list decides a field, which IDs come out of a finalization, and what is
    accepted at all (options.go, omni.go). */
module OptionMeaning {
  import opened Common
  import opened Ids
  import opened Options
  import opened OptionLaws

  // ------------------------------------------------------------------------
  // Lists of options, field by field
  // ------------------------------------------------------------------------

  function Overwrite<T>(said: Option<T>, value: T): T {
    if said.Some? then said.value else value
  }

  /** The value of the last option that sets a field; the base's value without one. */
  function LastSet<T>(sets: ConfigOption -> Option<T>, cs: seq<ConfigOption>, base: T): T
    decreases |cs|
  {
    if cs == [] then base else Overwrite(sets(cs[|cs| - 1]), LastSet(sets, cs[..|cs| - 1], base))
  }

  /** What the options of a list add to a field, in their order. */
  function Gathered<T>(adds: ConfigOption -> seq<T>, cs: seq<ConfigOption>): seq<T>
    decreases |cs|
  {
    if cs == [] then [] else Gathered(adds, cs[..|cs| - 1]) + adds(cs[|cs| - 1])
  }

  /** An option that sets the field and has none after it that does so decides it. */
  lemma {:induction false} LastSetIsLast<T>(sets: ConfigOption -> Option<T>, cs: seq<ConfigOption>, base: T, k: nat)
    requires k < |cs| && sets(cs[k]).Some? && forall j :: k < j < |cs| ==> sets(cs[j]).None?
    ensures Some(LastSet(sets, cs, base)) == sets(cs[k])
    decreases |cs|
  {
    if k == |cs| - 1 {
    } else {
      LastSetIsLast(sets, cs[..|cs| - 1], base, k);
    }
  }

  /** Without such an option the field keeps what it was. */
  lemma {:induction false} LastSetOfNone<T>(sets: ConfigOption -> Option<T>, cs: seq<ConfigOption>, base: T)
    requires forall j :: 0 <= j < |cs| ==> sets(cs[j]).None?
    ensures LastSet(sets, cs, base) == base
    decreases |cs|
  {
    if cs == [] {
    } else {
      LastSetOfNone(sets, cs[..|cs| - 1], base);
    }
  }

  function ImageOf(c: ConfigOption): Option<string> {
    match c
    case WithContainerImage(image) => if image == "" then None else Some(image)
    case _ => None
  }

  function TeardownOf(c: ConfigOption): Option<Option<bool>> {
    match c
    case ForceSchemaTeardown => Some(Some(true))
    case SkipSchemaTeardown => Some(Some(false))
    case _ => None
  }

  function DialectOf(c: ConfigOption): Option<Dialect> {
    match c
    case WithDatabaseDialect(dialect) => Some(dialect)
    case _ => None
  }

  function GuardrailsOffOf(c: ConfigOption): Option<bool> {
    match c
    case DisableBackendGuardrails => Some(true)
    case _ => None
  }

  function ProviderSetOf(c: ConfigOption): Option<bool> {
    match c
    case WithContainerProvider(_) => Some(true)
    case _ => None
  }

  function ConfigOf(c: ConfigOption): Option<Option<ClientConfig>> {
    match c
    case WithClientConfig(config) => Some(Some(config))
    case _ => None
  }

  function DDLsOf(c: ConfigOption): Option<seq<string>> {
    match c
    case WithSetupDDLs(ddls) => Some(ddls)
    case _ => None
  }

  function DescriptorsOf(c: ConfigOption): Option<string> {
    match c
    case WithSetupFileDescriptorSet(marshaled) => marshaled
    case _ => None
  }

  function DMLsOf(c: ConfigOption): Option<seq<string>> {
    match c
    case WithSetupDMLs(dmls) => Some(dmls)
    case _ => None
  }

  function CustomizersOf(c: ConfigOption): seq<CustomizerRef> {
    match c
    case WithContainerCustomizers(customizers) => customizers
    case WithContainerProvider(Some(provider)) => [UseProvider(provider)]
    case _ => []
  }

  function ClientOptionsOf(c: ConfigOption): seq<string> {
    match c
    case WithClientOptionsForClient(clientOptions) => clientOptions
    case _ => []
  }

  function GatewayFlagsOf(c: ConfigOption): seq<GatewayFlag> {
    match c
    case WithGatewaySwitch(name) => [Switch(name)]
    case WithMaxDatabasesPerInstance(n) => [MaxDatabases(n)]
    case WithChangeStreamPartitionTokenAliveSeconds(n) => [TokenAliveSeconds(n)]
    case _ => []
  }

  /** The fields that are not about IDs and creation. */
  datatype Settings = Settings(
    image: string,
    teardown: Option<bool>,
    dialect: Dialect,
    guardrailsOff: bool,
    providerSet: bool,
    config: Option<ClientConfig>,
    ddls: seq<string>,
    descriptors: string,
    dmls: seq<string>,
    customizers: seq<CustomizerRef>,
    clientOptions: seq<string>,
    gatewayFlags: seq<GatewayFlag>)

  function SettingsOf(o: Opts): Settings {
    Settings(o.image, o.schemaTeardown, o.databaseDialect, o.disableBackendGuardrails, o.containerProviderSet,
             o.clientConfig, o.setupDDLs, o.setupFileDescriptorSet, o.setupDMLs, o.containerCustomizers,
             o.clientOptionsForClient, o.gatewayFlags)
  }

  /** What one option says about each of them. */
  function Said(s: Settings, c: ConfigOption): Settings {
    Settings(Overwrite(ImageOf(c), s.image), Overwrite(TeardownOf(c), s.teardown),
             Overwrite(DialectOf(c), s.dialect), Overwrite(GuardrailsOffOf(c), s.guardrailsOff),
             Overwrite(ProviderSetOf(c), s.providerSet), Overwrite(ConfigOf(c), s.config),
             Overwrite(DDLsOf(c), s.ddls), Overwrite(DescriptorsOf(c), s.descriptors),
             Overwrite(DMLsOf(c), s.dmls), s.customizers + CustomizersOf(c),
             s.clientOptions + ClientOptionsOf(c), s.gatewayFlags + GatewayFlagsOf(c))
  }

  /** What a list says: the last option that sets a field with one value wins, and lists
      get the share of every option, in order. */
  function Meant(s: Settings, cs: seq<ConfigOption>): Settings {
    Settings(LastSet(ImageOf, cs, s.image), LastSet(TeardownOf, cs, s.teardown),
             LastSet(DialectOf, cs, s.dialect), LastSet(GuardrailsOffOf, cs, s.guardrailsOff),
             LastSet(ProviderSetOf, cs, s.providerSet), LastSet(ConfigOf, cs, s.config),
             LastSet(DDLsOf, cs, s.ddls), LastSet(DescriptorsOf, cs, s.descriptors),
             LastSet(DMLsOf, cs, s.dmls), s.customizers + Gathered(CustomizersOf, cs),
             s.clientOptions + Gathered(ClientOptionsOf, cs), s.gatewayFlags + Gathered(GatewayFlagsOf, cs))
  }

  lemma ResourceOptionsSayNothing(s: Settings, c: ConfigOption)
    requires ResourceOption(c)
    ensures Said(s, c) == s
  {
  }

  lemma ResourceOptionsKeepSettings(o: Opts, c: ConfigOption)
    requires ResourceOption(c)
    ensures Apply(o, c).Ok? && SettingsOf(Apply(o, c).value) == SettingsOf(o)
  {
    hide Or;
    match c
    case WithProjectID(_) =>
    case WithRandomProjectID =>
    case WithoutRandomProjectID =>
    case WithInstanceID(_) =>
    case WithRandomInstanceID =>
    case WithoutRandomInstanceID =>
    case WithDatabaseID(_) =>
    case WithRandomDatabaseID =>
    case WithoutRandomDatabaseID =>
    case DisableAutoConfig =>
    case EnableAutoConfig =>
    case EnableInstanceAutoConfigOnly =>
    case EnableDatabaseAutoConfigOnly =>
  }

  lemma ContainerSays(o: Opts, c: ConfigOption)
    requires ContainerOption(c) && ApplyContainer(o, c).Ok?
    ensures SettingsOf(ApplyContainer(o, c).value) == Said(SettingsOf(o), c)
  {
    match c
    case WithContainerCustomizers(_) =>
    case WithContainerProvider(_) =>
    case WithContainerImage(_) =>
  }

  lemma GatewaySays(o: Opts, c: ConfigOption)
    requires GatewayOption(c) && ApplyGateway(o, c).Ok?
    ensures SettingsOf(ApplyGateway(o, c).value) == Said(SettingsOf(o), c)
  {
    match c
    case WithGatewaySwitch(_) =>
    case WithMaxDatabasesPerInstance(_) =>
    case WithChangeStreamPartitionTokenAliveSeconds(_) =>
  }

  lemma ClientSays(o: Opts, c: ConfigOption)
    requires ClientOption(c)
    ensures SettingsOf(ApplyClient(o, c)) == Said(SettingsOf(o), c)
  {
    match c
    case WithClientOptionsForClient(_) =>
    case WithClientConfig(_) =>
  }

  lemma SchemaSays(o: Opts, c: ConfigOption)
    requires SchemaOption(c) && ApplySchema(o, c).Ok?
    ensures SettingsOf(ApplySchema(o, c).value) == Said(SettingsOf(o), c)
  {
    match c
    case WithSetupDDLs(_) =>
    case WithSetupFileDescriptorSet(_) =>
    case WithSetupDMLs(_) =>
  }

  lemma TeardownSays(o: Opts, c: ConfigOption)
    requires c.ForceSchemaTeardown? || c.SkipSchemaTeardown?
    ensures SettingsOf(ApplyMode(o, c)) == Said(SettingsOf(o), c)
  {
    match c
    case ForceSchemaTeardown =>
    case SkipSchemaTeardown =>
  }

  lemma OtherModeSays(o: Opts, c: ConfigOption)
    requires c.WithDatabaseDialect? || c.DisableBackendGuardrails?
    ensures SettingsOf(ApplyMode(o, c)) == Said(SettingsOf(o), c)
  {
    match c
    case WithDatabaseDialect(_) =>
    case DisableBackendGuardrails =>
  }

  lemma ModeSays(o: Opts, c: ConfigOption)
    requires ModeOption(c)
    ensures SettingsOf(ApplyMode(o, c)) == Said(SettingsOf(o), c)
  {
    hide ApplyMode, SettingsOf, Said;
    if c.ForceSchemaTeardown? || c.SkipSchemaTeardown? {
      TeardownSays(o, c);
    } else {
      OtherModeSays(o, c);
    }
  }

  lemma OptionSays(o: Opts, c: ConfigOption)
    requires Apply(o, c).Ok?
    ensures SettingsOf(Apply(o, c).value) == Said(SettingsOf(o), c)
  {
    hide SettingsOf, Said, ApplyContainer, ApplyGateway, ApplyClient, ApplySchema, ApplyMode;
    if ResourceOption(c) {
      ResourceOptionsSayNothing(SettingsOf(o), c);
      ResourceOptionsKeepSettings(o, c);
    } else if ContainerOption(c) {
      ContainerSays(o, c);
    } else if GatewayOption(c) {
      GatewaySays(o, c);
    } else if ClientOption(c) {
      ClientSays(o, c);
    } else if SchemaOption(c) {
      SchemaSays(o, c);
    } else {
      ModeSays(o, c);
    }
  }

  lemma LastSetMore<T>(sets: ConfigOption -> Option<T>, front: seq<ConfigOption>, c: ConfigOption, base: T)
    ensures LastSet(sets, front + [c], base) == Overwrite(sets(c), LastSet(sets, front, base))
  {
    assert (front + [c])[..|front|] == front;
  }

  lemma GatheredMore<T>(adds: ConfigOption -> seq<T>, front: seq<ConfigOption>, c: ConfigOption, base: seq<T>)
    ensures base + Gathered(adds, front + [c]) == base + Gathered(adds, front) + adds(c)
  {
    assert (front + [c])[..|front|] == front;
  }

  lemma MeantExtends(s: Settings, front: seq<ConfigOption>, c: ConfigOption)
    ensures Meant(s, front + [c]) == Said(Meant(s, front), c)
  {
    hide LastSet, Gathered, Overwrite, ImageOf, TeardownOf, DialectOf, GuardrailsOffOf, ProviderSetOf, ConfigOf;
    hide DDLsOf, DescriptorsOf, DMLsOf, CustomizersOf, ClientOptionsOf, GatewayFlagsOf;
    LastSetMore(ImageOf, front, c, s.image);
    LastSetMore(TeardownOf, front, c, s.teardown);
    LastSetMore(DialectOf, front, c, s.dialect);
    LastSetMore(GuardrailsOffOf, front, c, s.guardrailsOff);
    LastSetMore(ProviderSetOf, front, c, s.providerSet);
    LastSetMore(ConfigOf, front, c, s.config);
    LastSetMore(DDLsOf, front, c, s.ddls);
    LastSetMore(DescriptorsOf, front, c, s.descriptors);
    LastSetMore(DMLsOf, front, c, s.dmls);
    GatheredMore(CustomizersOf, front, c, s.customizers);
    GatheredMore(ClientOptionsOf, front, c, s.clientOptions);
    GatheredMore(GatewayFlagsOf, front, c, s.gatewayFlags);
  }

  /** After any accepted list, on any base: image, teardown, dialect, guardrails, provider
      mark, client configuration and set-up are those of the last option that sets them,
      and customizers, client options and gateway flags are the base's and then all that
      the options add. */
  lemma {:induction false} SettingsOfList(base: Opts, cs: seq<ConfigOption>)
    requires ApplyAll(base, cs).Ok?
    ensures SettingsOf(ApplyAll(base, cs).value) == Meant(SettingsOf(base), cs)
    decreases |cs|
  {
    hide Apply, SettingsOf;
    if cs == [] {
    } else {
      var n := |cs| - 1;
      ApplyAllSnoc(base, cs);
      SettingsOfList(base, cs[..n]);
      OptionSays(ApplyAll(base, cs[..n]).value, cs[n]);
      MeantExtends(SettingsOf(base), cs[..n], cs[n]);
      assert cs == cs[..n] + [cs[n]];
      hide Meant;
    }
  }

  // ------------------------------------------------------------------------
  // Lists of options and the IDs
  // ------------------------------------------------------------------------

  /** The ID an option leaves behind: the one it gives, or none when it asks for a random
      one. */
  function IdSaid(kind: Kind, c: ConfigOption): Option<string> {
    match (kind, c)
    case (Project, WithProjectID(id)) => Some(id)
    case (Project, WithRandomProjectID) => Some("")
    case (Instance, WithInstanceID(id)) => Some(id)
    case (Instance, WithRandomInstanceID) => Some("")
    case (Database, WithDatabaseID(id)) => Some(id)
    case (Database, WithRandomDatabaseID) => Some("")
    case _ => None
  }

  function IdSays(kind: Kind): ConfigOption -> Option<string> {
    c => IdSaid(kind, c)
  }

  lemma IdStep(kind: Kind, o: Opts, c: ConfigOption)
    requires Apply(o, c).Ok?
    ensures SlotOf(kind, Apply(o, c).value).id == Overwrite(IdSaid(kind, c), SlotOf(kind, o).id)
  {
    ApplyMovesSlot(kind, o, c);
    hide Apply;
  }

  lemma {:induction false} IdOfList(kind: Kind, base: Opts, cs: seq<ConfigOption>)
    requires ApplyAll(base, cs).Ok?
    ensures SlotOf(kind, ApplyAll(base, cs).value).id == LastSet(IdSays(kind), cs, SlotOf(kind, base).id)
    decreases |cs|
  {
    hide Apply, SlotOf, IdSaid, Overwrite;
    if cs == [] {
    } else {
      var n := |cs| - 1;
      ApplyAllSnoc(base, cs);
      IdOfList(kind, base, cs[..n]);
      IdStep(kind, ApplyAll(base, cs[..n]).value, cs[n]);
    }
  }

  /** The list asks for a random ID and does not take that back. */
  ghost predicate AsksForRandom(kind: Kind, cs: seq<ConfigOption>) {
    exists r :: LastRandomize(kind, cs, r) && NotTakenBack(kind, cs, r)
  }

  /** Whether an ID is still to be drawn. */
  predicate Pending(s: Slot) {
    s.random && !s.resolved
  }

  lemma PendingOfList(kind: Kind, base: Opts, cs: seq<ConfigOption>)
    requires SettledBase(base) && ApplyAll(base, cs).Ok?
    ensures Pending(SlotOf(kind, ApplyAll(base, cs).value)) <==> AsksForRandom(kind, cs)
  {
    SlotOfList(kind, base, cs);
    var r := FindLast(kind, cs, 0, true);
    hide Apply, OpOf, ApplyAll;
    if r >= 0 {
      assert LastRandomize(kind, cs, r);
    }
  }

  // ------------------------------------------------------------------------
  // Rejected options
  // ------------------------------------------------------------------------

  /** Why an option is rejected by itself. */
  function RejectionOf(c: ConfigOption): Option<OptionError> {
    match c
    case WithContainerProvider(None) => Some(BadProvider)
    case WithMaxDatabasesPerInstance(n) => if n > 0 then None else Some(NotPositive)
    case WithChangeStreamPartitionTokenAliveSeconds(n) => if n > 0 then None else Some(NotPositive)
    case WithSetupFileDescriptorSet(None) => Some(MarshalFailed)
    case _ => None
  }

  lemma RejectedAlone(o: Opts, c: ConfigOption)
    ensures Apply(o, c).Err? <==> RejectionOf(c).Some?
    ensures Apply(o, c).Err? ==> Some(Apply(o, c).error) == RejectionOf(c)
  {
    hide ApplyProject, ApplyInstance, ApplyDatabase, ApplyAutoConfig;
  }

  /** A list is rejected exactly if one of its options is, with the error of the first one
      that is. */
  lemma {:induction false} RejectionOfList(base: Opts, cs: seq<ConfigOption>)
    ensures ApplyAll(base, cs).Ok? <==> forall k :: 0 <= k < |cs| ==> RejectionOf(cs[k]).None?
    ensures forall k :: 0 <= k < |cs| && RejectionOf(cs[k]).Some?
                        && (forall j :: 0 <= j < k ==> RejectionOf(cs[j]).None?)
                        ==> ApplyAll(base, cs) == Err(RejectionOf(cs[k]).value)
    decreases |cs|
  {
    hide Apply, RejectionOf;
    if cs == [] {
    } else {
      RejectedAlone(base, cs[0]);
      match Apply(base, cs[0])
      case Err(_) =>
      case Ok(next) =>
        RejectionOfList(next, cs[1..]);
        assert forall k :: 1 <= k < |cs| ==> cs[k] == cs[1..][k - 1];
        if ApplyAll(next, cs[1..]).Ok? {
          forall k | 0 <= k < |cs| ensures RejectionOf(cs[k]).None? {
            if k > 0 {
              assert RejectionOf(cs[1..][k - 1]).None?;
            }
          }
        }
    }
  }

  // ------------------------------------------------------------------------
  // Finalization
  // ------------------------------------------------------------------------

  /** The ID a finalization settles on: a drawn one, an explicit one, or the default. */
  function FinalID(explicit: string, draws: bool, drawn: string, fallback: string): string {
    if draws then drawn else if explicit != "" then explicit else fallback
  }

  predicate Nonempty(rnd: Randoms) {
    rnd.project != "" && rnd.instance != "" && rnd.database != ""
  }

  function FinalProject(backend: Backend, o: Opts, rnd: Randoms): string {
    FinalID(o.projectID, o.randomProjectID, rnd.project,
            if backend == Omni then DEFAULT_OMNI_PROJECT_ID else DEFAULT_PROJECT_ID)
  }

  function FinalInstance(backend: Backend, o: Opts, rnd: Randoms): string {
    FinalID(o.instanceID, o.randomInstanceID, rnd.instance,
            if backend == Omni then DEFAULT_OMNI_INSTANCE_ID else DEFAULT_INSTANCE_ID)
  }

  /** A random database ID is drawn once; it is marked as resolved then. */
  function FinalDatabase(o: Opts, rnd: Randoms): string {
    FinalID(o.databaseID, o.randomDatabaseID && !o.randomDatabaseIDResolved, rnd.database, DEFAULT_DATABASE_ID)
  }

  /** The IDs that come out are the drawn, the explicit or the default ones. */
  predicate IDsSettled(backend: Backend, o: Opts, rnd: Randoms, f: Opts) {
    && f.projectID == FinalProject(backend, o, rnd)
    && f.instanceID == FinalInstance(backend, o, rnd)
    && f.databaseID == FinalDatabase(o, rnd)
    && f.randomDatabaseIDResolved == (o.randomDatabaseID || o.randomDatabaseIDResolved)
    && f.image == (if o.image != "" then o.image
                   else if backend == Omni then DEFAULT_OMNI_IMAGE else DEFAULT_EMULATOR_IMAGE)
  }

  /** Native metrics are off by default, and the Omni guardrails force both fields that the
      package manages; everything else of a given configuration stays. */
  predicate ConfigSettled(backend: Backend, o: Opts, f: Opts) {
    && f.clientConfig.Some?
    && (o.clientConfig.None? ==> f.clientConfig.value == ClientConfig(true, backend == Omni, 0))
    && (o.clientConfig.Some? && (backend == Emulator || o.disableBackendGuardrails) ==>
          f.clientConfig == o.clientConfig)
    && (o.clientConfig.Some? && backend == Omni && !o.disableBackendGuardrails ==>
          f.clientConfig.value == ClientConfig(true, true, o.clientConfig.value.rest))
  }

  /** The provider of the variable counts if no option has set one. */
  predicate ProviderFromEnv(o: Opts, env: ProviderEnv) {
    !o.containerProviderSet && env.Named? && env.provider != ProviderDefault
  }

  predicate ContainersSettled(o: Opts, env: ProviderEnv, f: Opts) {
    && f.containerProviderSet == (o.containerProviderSet || ProviderFromEnv(o, env))
    && f.containerCustomizers ==
       (if ProviderFromEnv(o, env) then [UseProvider(env.provider)] else []) + o.containerCustomizers
  }

  /** Every field of a finalized record. */
  predicate FullySettled(backend: Backend, o: Opts, rnd: Randoms, env: ProviderEnv, f: Opts) {
    IDsSettled(backend, o, rnd, f) && ConfigSettled(backend, o, f) && ContainersSettled(o, env, f) && SamePolicy(f, o)
  }

  lemma FillSettlesIDs(backend: Backend, o: Opts, rnd: Randoms)
    requires Nonempty(rnd)
    ensures IDsSettled(backend, o, rnd, FillDefaults(backend, Generate(o, rnd)))
  {
  }

  lemma FinishSettles(backend: Backend, o: Opts, env: ProviderEnv)
    requires Finish(backend, o, env).Ok?
    ensures var f, filled := Finish(backend, o, env).value, FillDefaults(backend, o);
      && f.projectID == filled.projectID && f.instanceID == filled.instanceID && f.databaseID == filled.databaseID
      && f.image == filled.image && f.randomDatabaseIDResolved == o.randomDatabaseIDResolved
      && ConfigSettled(backend, o, f) && ContainersSettled(o, env, f)
  {
    hide Or, DefaultsOf, InvalidResource, DescriptorsHaveWork;
  }

  /** What a finalization makes of a record it accepts, field by field. */
  lemma FinalizedRecord(backend: Backend, o: Opts, rnd: Randoms, env: ProviderEnv)
    requires Nonempty(rnd) && Finalize(backend, o, rnd, env).Ok?
    ensures FullySettled(backend, o, rnd, env, Finalize(backend, o, rnd, env).value)
  {
    FinalizeFinishes(backend, o, rnd, env);
    FinalizeKeepsPolicy(backend, o, rnd, env);
    FillSettlesIDs(backend, o, rnd);
    FinishSettles(backend, Generate(o, rnd), env);
    hide Finalize, Finish, FillDefaults, SamePolicy, FinalID;
  }

  predicate Violates(rule: GuardrailRule, o: Opts) {
    match rule
    case RandomProject => o.randomProjectID
    case RandomInstance => o.randomInstanceID
    case FixedProject => o.projectID != "" && o.projectID != DEFAULT_OMNI_PROJECT_ID
    case FixedInstance => o.instanceID != "" && o.instanceID != DEFAULT_OMNI_INSTANCE_ID
    case NoInstanceCreation => !o.disableCreateInstance
    case NoGatewayFlags => o.gatewayFlags != []
  }

  /** The record breaks the rule that this error stands for. */
  predicate Broken(e: OptionError, backend: Backend, o: Opts, rnd: Randoms, env: ProviderEnv) {
    match e
    case ProjectConflict => o.randomProjectID && o.projectID != ""
    case InstanceConflict => o.randomInstanceID && o.instanceID != ""
    case Guardrail(rule) => backend == Omni && !o.disableBackendGuardrails && Violates(rule, o)
    case DatabaseConflict => o.randomDatabaseID && !o.randomDatabaseIDResolved && o.databaseID != ""
    case InvalidId(Project) => !ValidId(Kind.Project, FinalProject(backend, o, rnd))
    case InvalidId(Instance) => !ValidId(Kind.Instance, FinalInstance(backend, o, rnd))
    case InvalidId(Database) => !ValidId(Kind.Database, FinalDatabase(o, rnd))
    case BadProviderEnv => env.Unparseable? && !o.containerProviderSet
    case DescriptorsWithoutDDL => o.setupFileDescriptorSet != "" && o.setupDDLs == [] && o.disableCreateDatabase
    case _ => false
  }

  /** The first guardrail that a record breaks. */
  function FirstGuardrail(o: Opts): Option<GuardrailRule> {
    if Violates(RandomProject, o) then Some(RandomProject)
    else if Violates(RandomInstance, o) then Some(RandomInstance)
    else if Violates(FixedProject, o) then Some(FixedProject)
    else if Violates(FixedInstance, o) then Some(FixedInstance)
    else if Violates(NoInstanceCreation, o) then Some(NoInstanceCreation)
    else if Violates(NoGatewayFlags, o) then Some(NoGatewayFlags)
    else None
  }

  /** The first of the rules at the end of both finalizers that a record breaks. */
  function LateVerdict(backend: Backend, o: Opts, rnd: Randoms, env: ProviderEnv): Option<OptionError> {
    if Broken(InvalidId(Kind.Project), backend, o, rnd, env) then Some(InvalidId(Kind.Project))
    else if Broken(InvalidId(Kind.Instance), backend, o, rnd, env) then Some(InvalidId(Kind.Instance))
    else if Broken(InvalidId(Kind.Database), backend, o, rnd, env) then Some(InvalidId(Kind.Database))
    else if Broken(BadProviderEnv, backend, o, rnd, env) then Some(BadProviderEnv)
    else if Broken(DescriptorsWithoutDDL, backend, o, rnd, env) then Some(DescriptorsWithoutDDL)
    else None
  }

  /** The first rule that a record breaks: conflicts of project and instance, guardrails,
      the conflict of the database, then what is checked last. */
  function Verdict(backend: Backend, o: Opts, rnd: Randoms, env: ProviderEnv): Option<OptionError> {
    if Broken(ProjectConflict, backend, o, rnd, env) then Some(ProjectConflict)
    else if Broken(InstanceConflict, backend, o, rnd, env) then Some(InstanceConflict)
    else if backend == Omni && !o.disableBackendGuardrails && FirstGuardrail(o).Some? then
      Some(Guardrail(FirstGuardrail(o).value))
    else if Broken(DatabaseConflict, backend, o, rnd, env) then Some(DatabaseConflict)
    else LateVerdict(backend, o, rnd, env)
  }

  /** There is a verdict exactly if some rule is broken, and it names one that is. */
  lemma VerdictIsBroken(backend: Backend, o: Opts, rnd: Randoms, env: ProviderEnv)
    ensures Verdict(backend, o, rnd, env).None? <==> forall e: OptionError :: !Broken(e, backend, o, rnd, env)
    ensures Verdict(backend, o, rnd, env).Some? ==>
              Broken(Verdict(backend, o, rnd, env).value, backend, o, rnd, env)
  {
    hide ValidId, FinalProject, FinalInstance, FinalDatabase;
    var verdict := Verdict(backend, o, rnd, env);
    if verdict.None? {
      forall e: OptionError ensures !Broken(e, backend, o, rnd, env) {
        match e
        case InvalidId(Project) =>
        case InvalidId(Instance) =>
        case InvalidId(Database) =>
        case Guardrail(RandomProject) =>
        case Guardrail(RandomInstance) =>
        case Guardrail(FixedProject) =>
        case Guardrail(FixedInstance) =>
        case Guardrail(NoInstanceCreation) =>
        case Guardrail(NoGatewayFlags) =>
        case _ =>
      }
    } else {
      assert Broken(verdict.value, backend, o, rnd, env);
    }
  }

  lemma InvalidMeansBroken(backend: Backend, o: Opts, rnd: Randoms, env: ProviderEnv)
    requires Nonempty(rnd)
    ensures var invalid := InvalidResource(FillDefaults(backend, Generate(o, rnd)));
      && (invalid == Some(Kind.Project) <==> Broken(InvalidId(Kind.Project), backend, o, rnd, env))
      && (invalid == Some(Kind.Instance) <==>
            !Broken(InvalidId(Kind.Project), backend, o, rnd, env)
            && Broken(InvalidId(Kind.Instance), backend, o, rnd, env))
      && (invalid == Some(Kind.Database) <==>
            !Broken(InvalidId(Kind.Project), backend, o, rnd, env)
            && !Broken(InvalidId(Kind.Instance), backend, o, rnd, env)
            && Broken(InvalidId(Kind.Database), backend, o, rnd, env))
  {
    hide ValidId;
    FillSettlesIDs(backend, o, rnd);
  }

  lemma SamePolicySameWork(a: Opts, b: Opts)
    requires SamePolicy(a, b)
    ensures DescriptorsHaveWork(a) <==> DescriptorsHaveWork(b)
  {
  }

  lemma ConfiguredKeepsProvider(backend: Backend, o: Opts)
    ensures FillClientConfig(backend, FillDefaults(backend, o)).containerProviderSet == o.containerProviderSet
  {
    hide Or, DefaultsOf, ClientConfigOf;
  }

  /** The common end of the finalizers: IDs first, then the provider variable, then the
      descriptors. */
  lemma FinishCases(backend: Backend, o: Opts, env: ProviderEnv)
    ensures var f, invalid := Finish(backend, o, env), InvalidResource(FillDefaults(backend, o));
      var unparseable := env.Unparseable? && !o.containerProviderSet;
      && (invalid.Some? ==> f == Err(InvalidId(invalid.value)))
      && (invalid.None? && unparseable ==> f == Err(BadProviderEnv))
      && (invalid.None? && !unparseable && !DescriptorsHaveWork(o) ==> f == Err(DescriptorsWithoutDDL))
      && (invalid.None? && !unparseable && DescriptorsHaveWork(o) ==> f.Ok?)
  {
    var filled := FillDefaults(backend, o);
    var configured := FillClientConfig(backend, filled);
    ConfiguredKeepsProvider(backend, o);
    FillDefaultsKeepsPolicy(backend, o);
    FillClientConfigKeepsPolicy(backend, filled);
    hide FillDefaults, FillClientConfig, InvalidResource, DescriptorsHaveWork, SamePolicy;
    SamePolicyTransitive(configured, filled, o);
    if ApplyProviderEnv(configured, env).Ok? {
      var done := ApplyProviderEnv(configured, env).value;
      ProviderEnvKeepsPolicy(configured, env);
      SamePolicyTransitive(done, configured, o);
      SamePolicySameWork(done, o);
    }
  }

  lemma FinishVerdict(backend: Backend, o: Opts, rnd: Randoms, env: ProviderEnv)
    requires Nonempty(rnd)
    ensures var f := Finish(backend, Generate(o, rnd), env);
      && (f.Ok? <==> LateVerdict(backend, o, rnd, env).None?)
      && (f.Err? ==> LateVerdict(backend, o, rnd, env) == Some(f.error))
  {
    InvalidMeansBroken(backend, o, rnd, env);
    FinishCases(backend, Generate(o, rnd), env);
    hide Finish, ValidId, FinalProject, FinalInstance, FinalDatabase, FillDefaults, InvalidResource;
  }

  lemma GuardrailInOrder(o: Opts)
    ensures OmniGuardrail(o) == if o.disableBackendGuardrails then None else FirstGuardrail(o)
  {
  }

  lemma ClashesAreBroken(backend: Backend, o: Opts, rnd: Randoms, env: ProviderEnv)
    ensures ProjectClash(o) <==> Broken(ProjectConflict, backend, o, rnd, env)
    ensures InstanceClash(o) <==> Broken(InstanceConflict, backend, o, rnd, env)
    ensures DatabaseClash(o) <==> Broken(DatabaseConflict, backend, o, rnd, env)
  {
  }

  /** A finalization accepts exactly what breaks no rule, and otherwise returns the error
      of the first rule that is broken. */
  lemma FinalizeVerdict(backend: Backend, o: Opts, rnd: Randoms, env: ProviderEnv)
    requires Nonempty(rnd)
    ensures var f := Finalize(backend, o, rnd, env);
      && (f.Ok? <==> Verdict(backend, o, rnd, env).None?)
      && (f.Err? ==> Verdict(backend, o, rnd, env) == Some(f.error))
  {
    FinishVerdict(backend, o, rnd, env);
    GuardrailInOrder(o);
    ClashesAreBroken(backend, o, rnd, env);
    hide Finish, Generate, LateVerdict, OmniGuardrail, FirstGuardrail, Broken;
    hide ProjectClash, InstanceClash, DatabaseClash;
  }

  // ------------------------------------------------------------------------
  // Lists of options and what comes out in the end
  // ------------------------------------------------------------------------

  /** The IDs at the end, from the list alone and what the base had. */
  ghost predicate IDsMeant(backend: Backend, base: Opts, cs: seq<ConfigOption>, rnd: Randoms, f: Opts) {
    && f.projectID == FinalID(LastSet(IdSays(Kind.Project), cs, base.projectID), AsksForRandom(Kind.Project, cs),
                              rnd.project, if backend == Omni then DEFAULT_OMNI_PROJECT_ID else DEFAULT_PROJECT_ID)
    && f.instanceID == FinalID(LastSet(IdSays(Kind.Instance), cs, base.instanceID), AsksForRandom(Kind.Instance, cs),
                               rnd.instance, if backend == Omni then DEFAULT_OMNI_INSTANCE_ID else DEFAULT_INSTANCE_ID)
    && f.databaseID == FinalID(LastSet(IdSays(Kind.Database), cs, base.databaseID), AsksForRandom(Kind.Database, cs),
                               rnd.database, DEFAULT_DATABASE_ID)
  }

  /** The settings at the end that a finalization leaves alone. */
  ghost predicate SettingsMeant(base: Opts, cs: seq<ConfigOption>, f: Opts) {
    && f.schemaTeardown == LastSet(TeardownOf, cs, base.schemaTeardown)
    && f.databaseDialect == LastSet(DialectOf, cs, base.databaseDialect)
    && f.disableBackendGuardrails == LastSet(GuardrailsOffOf, cs, base.disableBackendGuardrails)
    && f.setupDDLs == LastSet(DDLsOf, cs, base.setupDDLs)
    && f.setupFileDescriptorSet == LastSet(DescriptorsOf, cs, base.setupFileDescriptorSet)
    && f.setupDMLs == LastSet(DMLsOf, cs, base.setupDMLs)
    && f.clientOptionsForClient == base.clientOptionsForClient + Gathered(ClientOptionsOf, cs)
    && f.gatewayFlags == base.gatewayFlags + Gathered(GatewayFlagsOf, cs)
  }

  lemma FinalIDsMeant(backend: Backend, base: Opts, cs: seq<ConfigOption>, rnd: Randoms, env: ProviderEnv)
    requires SettledBase(base) && Nonempty(rnd) && ApplyAndFinalize(backend, base, cs, rnd, env).Ok?
    ensures IDsMeant(backend, base, cs, rnd, ApplyAndFinalize(backend, base, cs, rnd, env).value)
  {
    var o := ApplyAll(base, cs).value;
    FinalizedRecord(backend, o, rnd, env);
    forall kind: Kind
      ensures SlotOf(kind, o).id == LastSet(IdSays(kind), cs, SlotOf(kind, base).id)
      ensures Pending(SlotOf(kind, o)) <==> AsksForRandom(kind, cs)
    {
      IdOfList(kind, base, cs);
      PendingOfList(kind, base, cs);
    }
    hide Finalize, ApplyAll, FinalID, IdSays, AsksForRandom, LastSet, SamePolicy;
    assert SlotOf(Kind.Project, o).id == o.projectID && SlotOf(Kind.Project, base).id == base.projectID;
    assert SlotOf(Kind.Instance, o).id == o.instanceID && SlotOf(Kind.Instance, base).id == base.instanceID;
    assert SlotOf(Kind.Database, o).id == o.databaseID && SlotOf(Kind.Database, base).id == base.databaseID;
  }

  lemma FinalSettingsMeant(backend: Backend, base: Opts, cs: seq<ConfigOption>, rnd: Randoms, env: ProviderEnv)
    requires ApplyAndFinalize(backend, base, cs, rnd, env).Ok?
    ensures SettingsMeant(base, cs, ApplyAndFinalize(backend, base, cs, rnd, env).value)
  {
    var o := ApplyAll(base, cs).value;
    SettingsOfList(base, cs);
    FinalizeKeepsPolicy(backend, o, rnd, env);
    hide Finalize, ApplyAll, LastSet, Gathered;
  }

  /** The creation switches at the end. Databases: the last option that sets the switch
      outright; without one, the first WithDatabaseID turns creation on again exactly if the
      base reuses another database. Instances: the last option that sets the switch. */
  ghost predicate PolicyMeant(base: Opts, cs: seq<ConfigOption>, f: Opts) {
    && (forall k :: LastPolicy(cs, k) ==> f.disableCreateDatabase == PolicyOf(cs[k]).value)
    && (NoPolicy(cs) ==>
          && (forall k :: FirstDatabaseID(cs, k) ==>
                f.disableCreateDatabase ==
                (base.disableCreateDatabase
                    && (base.reuseExistingDatabase ==> NamesSameDatabase(cs[k].id, base.databaseID))))
          && (NoDatabaseID(cs) ==> f.disableCreateDatabase == base.disableCreateDatabase))
    && f.disableCreateInstance == LastSet(InstancePolicyOf, cs, base.disableCreateInstance)
  }

  lemma {:induction false} InstanceSwitchOfList(base: Opts, cs: seq<ConfigOption>)
    requires ApplyAll(base, cs).Ok?
    ensures ApplyAll(base, cs).value.disableCreateInstance ==
            LastSet(InstancePolicyOf, cs, base.disableCreateInstance)
    decreases |cs|
  {
    hide Apply, InstancePolicyOf;
    if cs == [] {
    } else {
      var n := |cs| - 1;
      ApplyAllSnoc(base, cs);
      InstanceSwitchOfList(base, cs[..n]);
      InstancePolicyStep(ApplyAll(base, cs[..n]).value, cs[n]);
    }
  }

  lemma FinalPolicyMeant(backend: Backend, base: Opts, cs: seq<ConfigOption>, rnd: Randoms, env: ProviderEnv)
    requires ApplyAndFinalize(backend, base, cs, rnd, env).Ok?
    ensures PolicyMeant(base, cs, ApplyAndFinalize(backend, base, cs, rnd, env).value)
  {
    PolicyOfList(base, cs);
    InstanceSwitchOfList(base, cs);
    FinalizeKeepsPolicy(backend, ApplyAll(base, cs).value, rnd, env);
    hide Finalize, ApplyAll, NamesSameDatabase, LastSet, PolicyOf, InstancePolicyOf;
  }

  /** Both runtimes hand on who they are and how to talk to them, and nothing that creates,
      tears down or sets up. */
  predicate SameRuntime(backend: Backend, source: Opts, f: Opts) {
    && f.projectID == source.projectID && f.instanceID == source.instanceID && f.databaseID == source.databaseID
    && f.databaseDialect == source.databaseDialect && f.clientConfig == source.clientConfig
    && (f.disableBackendGuardrails <==> backend == Omni && source.disableBackendGuardrails)
    && f.disableCreateInstance && f.disableCreateDatabase && f.schemaTeardown == None
    && f.setupDDLs == [] && f.setupDMLs == [] && f.setupFileDescriptorSet == ""
  }

  lemma InheritedChecks(backend: Backend, source: Opts)
    requires InvalidResource(source) == None && FillClientConfig(backend, source) == source
    requires backend == Omni ==> GuardedOrFree(source)
    ensures var base := InheritedBase(backend, source);
      && SameRuntime(backend, source, base) && SettledBase(base)
      && InvalidResource(base) == None && DescriptorsHaveWork(base) && FillClientConfig(backend, base) == base
      && (backend == Omni ==> OmniGuardrail(base) == None)
  {
    hide ValidId;
  }

  lemma KeepsRuntime(backend: Backend, source: Opts, a: Opts, b: Opts)
    requires SameRuntime(backend, source, a) && SameButContainer(a, b)
    ensures SameRuntime(backend, source, b)
  {
  }

  /** Opening clients on a running emulator or Omni without options works exactly unless
      the provider variable is unparseable, and addresses the same resources, in the same
      dialect and with the same client configuration, creating nothing. */
  lemma ReopenedAsIs(backend: Backend, o: Opts, rnd: Randoms, env: ProviderEnv, rnd': Randoms, env': ProviderEnv)
    requires Finalize(backend, o, rnd, env).Ok?
    ensures var source := Finalize(backend, o, rnd, env).value;
      var full := ApplyAndFinalize(backend, InheritedBase(backend, source), [], rnd', env');
      && (full.Ok? <==> env' != Unparseable)
      && (full.Ok? ==> SameRuntime(backend, source, full.value))
  {
    var source := Finalize(backend, o, rnd, env).value;
    var base := InheritedBase(backend, source);
    FinalizeFinishes(backend, o, rnd, env);
    FinishedShape(backend, Generate(o, rnd), env);
    if backend == Omni {
      GuardrailsPassAgain(o, rnd, env);
    }
    hide Finalize, Finish, Generate, InvalidResource, SameRuntime, FillClientConfig;
    InheritedChecks(backend, source);
    FinishWithoutImage(backend, base, env');
    FinalizeOfSettled(backend, base, rnd', env');
    if env' != Unparseable {
      KeepsRuntime(backend, source, base, Finish(backend, base, env').value);
    }
  }
}
