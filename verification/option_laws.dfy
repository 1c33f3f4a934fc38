/** Laws of the option algebra: closed forms for option lists of any length, the
    conflict verdict, re-finalization, and the attached runtime's shortcut. */
module OptionLaws {
  import opened Common
  import opened Ids
  import opened Options

  // ------------------------------------------------------------------------
  // Lists of options, seen from their end
  // ------------------------------------------------------------------------

  /** Running a list is running all but its last option, then the last. */
  lemma {:induction false} ApplyAllSnoc(o: Opts, cs: seq<ConfigOption>)
    requires cs != []
    ensures ApplyAll(o, cs) == (match ApplyAll(o, cs[..|cs| - 1])
                                case Err(e) => Err(e)
                                case Ok(mid) => Apply(mid, cs[|cs| - 1]))
    decreases |cs|
  {
    hide Apply;
    var front := cs[..|cs| - 1];
    if |cs| == 1 {
      assert cs[1..] == [] && front == [];
    } else {
      assert front[0] == cs[0] && front[1..] == cs[1..][..|cs| - 2];
      match Apply(o, cs[0])
      case Err(_) =>
      case Ok(next) => ApplyAllSnoc(next, cs[1..]);
    }
  }

  /** Whether a list is accepted, and its first error, never depend on the base. */
  lemma {:induction false} ListErrorsIgnoreBase(a: Opts, b: Opts, cs: seq<ConfigOption>)
    ensures ApplyAll(a, cs).Ok? <==> ApplyAll(b, cs).Ok?
    ensures ApplyAll(a, cs).Err? ==> ApplyAll(b, cs) == ApplyAll(a, cs)
    decreases |cs|
  {
    if cs == [] {
    } else {
      var x, y := Apply(a, cs[0]), Apply(b, cs[0]);
      assert (x.Ok? <==> y.Ok?) && (x.Err? ==> x == y);
      hide Apply;
      if x.Ok? {
        ListErrorsIgnoreBase(x.value, y.value, cs[1..]);
      }
    }
  }

  // ------------------------------------------------------------------------
  // Creation policy
  // ------------------------------------------------------------------------

  /** The database creation switch an option sets outright. */
  function PolicyOf(c: ConfigOption): Option<bool> {
    match c
    case DisableAutoConfig => Some(true)
    case EnableAutoConfig => Some(false)
    case EnableInstanceAutoConfigOnly => Some(true)
    case EnableDatabaseAutoConfigOnly => Some(false)
    case WithRandomDatabaseID => Some(false)
    case _ => None
  }

  ghost predicate LastPolicy(cs: seq<ConfigOption>, k: int) {
    && 0 <= k < |cs| && PolicyOf(cs[k]).Some?
    && forall j :: k < j < |cs| ==> PolicyOf(cs[j]).None?
  }

  ghost predicate NoPolicy(cs: seq<ConfigOption>) {
    forall j :: 0 <= j < |cs| ==> PolicyOf(cs[j]).None?
  }

  ghost predicate FirstDatabaseID(cs: seq<ConfigOption>, k: int) {
    && 0 <= k < |cs| && cs[k].WithDatabaseID?
    && forall j :: 0 <= j < k ==> !cs[j].WithDatabaseID?
  }

  ghost predicate NoDatabaseID(cs: seq<ConfigOption>) {
    forall j :: 0 <= j < |cs| ==> !cs[j].WithDatabaseID?
  }

  predicate NamesSameDatabase(id: string, inherited: string) {
    Or(id, DEFAULT_DATABASE_ID) == Or(inherited, DEFAULT_DATABASE_ID)
  }

  /** What a list makes of the creation switch, given only the base it starts from. */
  ghost predicate PolicyExplained(base: Opts, cs: seq<ConfigOption>, o: Opts) {
    && (forall k :: LastPolicy(cs, k) ==> o.disableCreateDatabase == PolicyOf(cs[k]).value && !o.reuseExistingDatabase)
    && (NoPolicy(cs) ==>
          && (forall k :: FirstDatabaseID(cs, k) ==>
                && !o.reuseExistingDatabase
                && o.disableCreateDatabase ==
                   (base.disableCreateDatabase
                       && (base.reuseExistingDatabase ==> NamesSameDatabase(cs[k].id, base.databaseID))))
          && (NoDatabaseID(cs) ==>
                && o.reuseExistingDatabase == base.reuseExistingDatabase
                && o.disableCreateDatabase == base.disableCreateDatabase
                && o.databaseID == base.databaseID))
  }

  /** How one option moves the three fields the policy reads. */
  ghost predicate PolicyMove(o: Opts, c: ConfigOption, n: Opts) {
    && (PolicyOf(c).Some? ==> n.disableCreateDatabase == PolicyOf(c).value && !n.reuseExistingDatabase)
    && (c.WithDatabaseID? ==>
          && !n.reuseExistingDatabase
          && n.disableCreateDatabase ==
             (o.disableCreateDatabase && (o.reuseExistingDatabase ==> NamesSameDatabase(c.id, o.databaseID))))
    && (PolicyOf(c).None? && !c.WithDatabaseID? ==>
          && n.reuseExistingDatabase == o.reuseExistingDatabase
          && n.disableCreateDatabase == o.disableCreateDatabase
          && n.databaseID == o.databaseID)
  }

  /** The fields that choose IDs and creation policy. */
  datatype Resources = Resources(project: (string, bool), instance: (string, bool), database: (string, bool, bool),
                                 reuse: bool, noInstance: bool, noDatabase: bool)

  function ResourcesOf(o: Opts): Resources {
    Resources((o.projectID, o.randomProjectID), (o.instanceID, o.randomInstanceID),
              (o.databaseID, o.randomDatabaseID, o.randomDatabaseIDResolved),
              o.reuseExistingDatabase, o.disableCreateInstance, o.disableCreateDatabase)
  }

  lemma ContainerKeepsResources(o: Opts, c: ConfigOption)
    requires ContainerOption(c) && ApplyContainer(o, c).Ok?
    ensures ResourcesOf(ApplyContainer(o, c).value) == ResourcesOf(o)
  {
    hide Or;
    match c
    case WithContainerCustomizers(_) =>
    case WithContainerProvider(_) =>
    case WithContainerImage(_) =>
  }

  lemma GatewayKeepsResources(o: Opts, c: ConfigOption)
    requires GatewayOption(c) && ApplyGateway(o, c).Ok?
    ensures ResourcesOf(ApplyGateway(o, c).value) == ResourcesOf(o)
  {
    match c
    case WithGatewaySwitch(_) =>
    case WithMaxDatabasesPerInstance(_) =>
    case WithChangeStreamPartitionTokenAliveSeconds(_) =>
  }

  lemma ClientKeepsResources(o: Opts, c: ConfigOption)
    requires ClientOption(c)
    ensures ResourcesOf(ApplyClient(o, c)) == ResourcesOf(o)
  {
    match c
    case WithClientOptionsForClient(_) =>
    case WithClientConfig(_) =>
  }

  lemma SchemaKeepsResources(o: Opts, c: ConfigOption)
    requires SchemaOption(c) && ApplySchema(o, c).Ok?
    ensures ResourcesOf(ApplySchema(o, c).value) == ResourcesOf(o)
  {
    match c
    case WithSetupDDLs(_) =>
    case WithSetupFileDescriptorSet(_) =>
    case WithSetupDMLs(_) =>
  }

  lemma ModeKeepsResources(o: Opts, c: ConfigOption)
    requires ModeOption(c)
    ensures ResourcesOf(ApplyMode(o, c)) == ResourcesOf(o)
  {
    match c
    case WithDatabaseDialect(_) =>
    case DisableBackendGuardrails =>
    case ForceSchemaTeardown =>
    case SkipSchemaTeardown =>
  }

  /** The other options leave IDs and creation policy alone. */
  lemma OtherOptionsKeepResources(o: Opts, c: ConfigOption)
    requires Apply(o, c).Ok? && !ResourceOption(c)
    ensures ResourcesOf(Apply(o, c).value) == ResourcesOf(o)
  {
    hide ResourcesOf, ApplyContainer, ApplyGateway, ApplyClient, ApplySchema, ApplyMode;
    if ContainerOption(c) {
      ContainerKeepsResources(o, c);
    } else if GatewayOption(c) {
      GatewayKeepsResources(o, c);
    } else if ClientOption(c) {
      ClientKeepsResources(o, c);
    } else if SchemaOption(c) {
      SchemaKeepsResources(o, c);
    } else {
      ModeKeepsResources(o, c);
    }
  }

  lemma PolicyStep(o: Opts, c: ConfigOption)
    requires Apply(o, c).Ok?
    ensures PolicyMove(o, c, Apply(o, c).value)
  {
    if ResourceOption(c) {
      hide Or;
    } else {
      OtherOptionsKeepResources(o, c);
      hide Apply, Or;
    }
  }

  lemma PolicyOfNothing(base: Opts)
    ensures PolicyExplained(base, [], base)
  {
  }

  lemma PolicyExtends(base: Opts, front: seq<ConfigOption>, c: ConfigOption, mid: Opts, end: Opts)
    requires PolicyExplained(base, front, mid)
    requires Apply(mid, c) == Ok(end)
    ensures PolicyExplained(base, front + [c], end)
  {
    PolicyStep(mid, c);
    hide Apply, NamesSameDatabase;
    var cs := front + [c];
    var n := |front|;
    forall k | LastPolicy(cs, k)
      ensures end.disableCreateDatabase == PolicyOf(cs[k]).value && !end.reuseExistingDatabase
    {
      if k < n {
        assert PolicyOf(cs[n]).None?;
        assert forall j :: 0 <= j < n ==> front[j] == cs[j];
        assert LastPolicy(front, k);
      }
    }
    if NoPolicy(cs) {
      assert PolicyOf(cs[n]).None?;
      assert forall j :: 0 <= j < n ==> front[j] == cs[j];
      assert NoPolicy(front);
      forall k | FirstDatabaseID(cs, k)
        ensures !end.reuseExistingDatabase
        ensures end.disableCreateDatabase ==
                (base.disableCreateDatabase
                    && (base.reuseExistingDatabase ==> NamesSameDatabase(cs[k].id, base.databaseID)))
      {
        if k < n {
          assert FirstDatabaseID(front, k);
        } else {
          assert NoDatabaseID(front);
        }
      }
      if NoDatabaseID(cs) {
        assert !cs[n].WithDatabaseID?;
        assert NoDatabaseID(front);
      }
    }
  }

  lemma {:induction false} PolicyOfList(base: Opts, cs: seq<ConfigOption>)
    requires ApplyAll(base, cs).Ok?
    ensures PolicyExplained(base, cs, ApplyAll(base, cs).value)
    decreases |cs|
  {
    hide Apply, PolicyExplained;
    if cs == [] {
      PolicyOfNothing(base);
    } else {
      var n := |cs| - 1;
      var front, c := cs[..n], cs[n];
      ApplyAllSnoc(base, cs);
      PolicyOfList(base, front);
      PolicyExtends(base, front, c, ApplyAll(base, front).value, ApplyAll(base, cs).value);
      assert cs == front + [c];
    }
  }

  /** The two records agree on everything but IDs, image, client configuration and
      container fields. */
  predicate SamePolicy(a: Opts, b: Opts) {
    && a.randomProjectID == b.randomProjectID && a.randomInstanceID == b.randomInstanceID
    && a.randomDatabaseID == b.randomDatabaseID
    && a.disableCreateInstance == b.disableCreateInstance && a.disableCreateDatabase == b.disableCreateDatabase
    && a.disableBackendGuardrails == b.disableBackendGuardrails && a.reuseExistingDatabase == b.reuseExistingDatabase
    && a.schemaTeardown == b.schemaTeardown && a.databaseDialect == b.databaseDialect
    && a.setupDDLs == b.setupDDLs && a.setupFileDescriptorSet == b.setupFileDescriptorSet && a.setupDMLs == b.setupDMLs
    && a.clientOptionsForClient == b.clientOptionsForClient && a.gatewayFlags == b.gatewayFlags
  }

  lemma GenerateKeepsPolicy(o: Opts, rnd: Randoms)
    ensures SamePolicy(Generate(o, rnd), o)
  {
  }

  lemma FillDefaultsKeepsPolicy(backend: Backend, o: Opts)
    ensures SamePolicy(FillDefaults(backend, o), o)
    ensures FillDefaults(backend, o).clientConfig == o.clientConfig
  {
  }

  lemma FillClientConfigKeepsPolicy(backend: Backend, o: Opts)
    ensures SamePolicy(FillClientConfig(backend, o), o)
  {
  }

  lemma SamePolicyButContainer(o: Opts, set': bool, customizers: seq<CustomizerRef>)
    ensures SamePolicy(o.(containerProviderSet := set', containerCustomizers := customizers), o)
  {
  }

  lemma ProviderEnvKeepsPolicy(o: Opts, env: ProviderEnv)
    requires ApplyProviderEnv(o, env).Ok?
    ensures SamePolicy(ApplyProviderEnv(o, env).value, o)
  {
    hide SamePolicy;
    var next := ApplyProviderEnv(o, env).value;
    SamePolicyButContainer(o, next.containerProviderSet, next.containerCustomizers);
    assert next == o.(containerProviderSet := next.containerProviderSet,
        containerCustomizers := next.containerCustomizers);
  }

  lemma SamePolicyTransitive(a: Opts, b: Opts, c: Opts)
    requires SamePolicy(a, b) && SamePolicy(b, c)
    ensures SamePolicy(a, c)
  {
  }

  lemma FinishKeepsPolicy(backend: Backend, o: Opts, env: ProviderEnv)
    requires Finish(backend, o, env).Ok?
    ensures SamePolicy(Finish(backend, o, env).value, o)
  {
    var filled := FillDefaults(backend, o);
    var configured := FillClientConfig(backend, filled);
    hide FillDefaults, FillClientConfig, ApplyProviderEnv, InvalidResource, DescriptorsHaveWork, SamePolicy;
    FillDefaultsKeepsPolicy(backend, o);
    FillClientConfigKeepsPolicy(backend, filled);
    ProviderEnvKeepsPolicy(configured, env);
    SamePolicyTransitive(configured, filled, o);
    SamePolicyTransitive(Finish(backend, o, env).value, configured, o);
  }

  /** A successful finalization ends in Finish. */
  lemma FinalizeFinishes(backend: Backend, o: Opts, rnd: Randoms, env: ProviderEnv)
    requires Finalize(backend, o, rnd, env).Ok?
    ensures Finalize(backend, o, rnd, env) == Finish(backend, Generate(o, rnd), env)
  {
    hide Finish, Generate;
  }

  lemma FinalizeKeepsPolicy(backend: Backend, o: Opts, rnd: Randoms, env: ProviderEnv)
    requires Finalize(backend, o, rnd, env).Ok?
    ensures SamePolicy(Finalize(backend, o, rnd, env).value, o)
  {
    hide Finalize, Finish, Generate, SamePolicy;
    FinalizeFinishes(backend, o, rnd, env);
    FinishKeepsPolicy(backend, Generate(o, rnd), env);
    GenerateKeepsPolicy(o, rnd);
    SamePolicyTransitive(Finalize(backend, o, rnd, env).value, Generate(o, rnd), o);
  }

  /** The creation switch after a list on a base that reuses its database: the value of
      the last auto-config or random-ID option; without one, creation stays off exactly
      when the first WithDatabaseID names the inherited database; with neither, it stays
      off. */
  ghost predicate ReopenPolicy(base: Opts, cs: seq<ConfigOption>, f: Opts) {
    && (forall k :: LastPolicy(cs, k) ==> f.disableCreateDatabase == PolicyOf(cs[k]).value)
    && (NoPolicy(cs) ==>
          && (forall k :: FirstDatabaseID(cs, k) ==>
                (f.disableCreateDatabase <==> NamesSameDatabase(cs[k].id, base.databaseID)))
          && (NoDatabaseID(cs) ==> f.disableCreateDatabase))
  }

  /** Reopening a running emulator or Omni, for every list of options. */
  lemma CreationPolicy(backend: Backend, base: Opts, cs: seq<ConfigOption>, rnd: Randoms, env: ProviderEnv)
    requires base.disableCreateDatabase && base.reuseExistingDatabase
    requires ApplyAndFinalize(backend, base, cs, rnd, env).Ok?
    ensures ReopenPolicy(base, cs, ApplyAndFinalize(backend, base, cs, rnd, env).value)
  {
    hide NamesSameDatabase, Finalize;
    PolicyOfList(base, cs);
    FinalizeKeepsPolicy(backend, ApplyAll(base, cs).value, rnd, env);
  }

  /** Bases on which no ID is both explicit and still to be generated. */
  predicate SettledBase(o: Opts) {
    !o.randomProjectID && !o.randomInstanceID && (o.randomDatabaseID ==> o.randomDatabaseIDResolved)
  }

  /** A base that reuses its database, creates nothing, forces no teardown, and on which
      no ID is both explicit and still to be generated. */
  predicate OpensNothing(base: Opts) {
    && base.disableCreateDatabase && base.reuseExistingDatabase && base.disableCreateInstance
    && !ForcedTeardown(base) && SettledBase(base)
  }

  /** The bases of both backends are such. */
  lemma InheritedBasesReuse(backend: Backend, source: Opts)
    ensures OpensNothing(InheritedBase(backend, source))
    ensures InheritedBase(Emulator, source) == Inherited(source)
  {
  }

  /** The policy is not last-wins: naming another database and then the inherited one
      again leaves creation on. */
  lemma DatabaseIDIsNotLastWins(base: Opts)
    requires base.disableCreateDatabase && base.reuseExistingDatabase && base.databaseID == "inherited"
    ensures var cs := [WithDatabaseID("other"), WithDatabaseID("inherited")];
      && ApplyAll(base, cs).Ok?
      && ApplyAll(base, cs).value.databaseID == base.databaseID
      && !ApplyAll(base, cs).value.disableCreateDatabase
  {
  }

  // ------------------------------------------------------------------------
  // Instance creation
  // ------------------------------------------------------------------------

  /** The instance creation switch an option sets outright. */
  function InstancePolicyOf(c: ConfigOption): Option<bool> {
    match c
    case DisableAutoConfig => Some(true)
    case EnableAutoConfig => Some(false)
    case EnableInstanceAutoConfigOnly => Some(false)
    case EnableDatabaseAutoConfigOnly => Some(true)
    case WithRandomInstanceID => Some(false)
    case _ => None
  }

  lemma InstancePolicyStep(o: Opts, c: ConfigOption)
    requires Apply(o, c).Ok?
    ensures Apply(o, c).value.disableCreateInstance ==
            (if InstancePolicyOf(c).Some? then InstancePolicyOf(c).value else o.disableCreateInstance)
  {
    if ResourceOption(c) {
      hide Or;
    } else {
      OtherOptionsKeepResources(o, c);
      hide Apply, Or;
    }
  }

  /** The instance creation switch is last-wins over its five options. */
  lemma {:induction false} InstancePolicy(base: Opts, cs: seq<ConfigOption>)
    requires ApplyAll(base, cs).Ok?
    ensures var o := ApplyAll(base, cs).value;
      && (forall k :: 0 <= k < |cs| && InstancePolicyOf(cs[k]).Some?
                      && (forall j :: k < j < |cs| ==> InstancePolicyOf(cs[j]).None?)
                      ==> o.disableCreateInstance == InstancePolicyOf(cs[k]).value)
      && ((forall j :: 0 <= j < |cs| ==> InstancePolicyOf(cs[j]).None?) ==>
          o.disableCreateInstance == base.disableCreateInstance)
    decreases |cs|
  {
    if cs == [] {
    } else {
      var n := |cs| - 1;
      var front := cs[..n];
      ApplyAllSnoc(base, cs);
      InstancePolicy(base, front);
      InstancePolicyStep(ApplyAll(base, front).value, cs[n]);
      hide Apply;
      assert forall j :: 0 <= j < n ==> front[j] == cs[j];
    }
  }

  // ------------------------------------------------------------------------
  // The random-versus-explicit conflict
  // ------------------------------------------------------------------------

  /** One ID with its random flag; project and instance IDs are never resolved. */
  datatype Slot = Slot(id: string, random: bool, resolved: bool)

  datatype SlotOp = SetId(id: string) | Randomize | Derandomize | Leave

  function SlotOf(kind: Kind, o: Opts): Slot {
    match kind
    case Project => Slot(o.projectID, o.randomProjectID, false)
    case Instance => Slot(o.instanceID, o.randomInstanceID, false)
    case Database => Slot(o.databaseID, o.randomDatabaseID, o.randomDatabaseIDResolved)
  }

  function OpOf(kind: Kind, c: ConfigOption): SlotOp {
    match (kind, c)
    case (Project, WithProjectID(id)) => SetId(id)
    case (Project, WithRandomProjectID) => Randomize
    case (Project, WithoutRandomProjectID) => Derandomize
    case (Instance, WithInstanceID(id)) => SetId(id)
    case (Instance, WithRandomInstanceID) => Randomize
    case (Instance, WithoutRandomInstanceID) => Derandomize
    case (Database, WithDatabaseID(id)) => SetId(id)
    case (Database, WithRandomDatabaseID) => Randomize
    case (Database, WithoutRandomDatabaseID) => Derandomize
    case _ => Leave
  }

  function SlotStep(s: Slot, op: SlotOp): Slot {
    match op
    case SetId(id) => Slot(id, s.random && !s.resolved, false)
    case Randomize => Slot("", true, false)
    case Derandomize => s.(random := false)
    case Leave => s
  }

  predicate Clashes(s: Slot) {
    s.random && s.id != "" && !s.resolved
  }

  /** A slot no finalization could object to by itself. */
  predicate Settled(s: Slot) {
    s.random ==> s.resolved
  }

  /** r is the last randomizing option for this ID. */
  ghost predicate LastRandomize(kind: Kind, cs: seq<ConfigOption>, r: int) {
    && 0 <= r < |cs| && OpOf(kind, cs[r]).Randomize?
    && forall j :: r < j < |cs| ==> !OpOf(kind, cs[j]).Randomize?
  }

  /** No option after position r sets the ID. */
  ghost predicate NoSetAfter(kind: Kind, cs: seq<ConfigOption>, r: int)
    requires r >= -1
  {
    forall j :: r < j < |cs| ==> !OpOf(kind, cs[j]).SetId?
  }

  ghost predicate NotTakenBack(kind: Kind, cs: seq<ConfigOption>, r: int)
    requires r >= 0
  {
    forall j :: r < j < |cs| ==> !OpOf(kind, cs[j]).Derandomize?
  }

  /** w holds the last value set for the ID after position r. */
  ghost predicate LastSetAfter(kind: Kind, cs: seq<ConfigOption>, r: int, w: int)
    requires r >= 0
  {
    r < w < |cs| && OpOf(kind, cs[w]).SetId? && NoSetAfter(kind, cs, w)
  }

  /** The list itself asks for both: after the last randomizing option the ID is set
      to something nonempty, and the randomizing is not taken back. */
  ghost predicate AsksForBoth(kind: Kind, cs: seq<ConfigOption>) {
    exists r, w ::
      && LastRandomize(kind, cs, r) && LastSetAfter(kind, cs, r, w)
      && OpOf(kind, cs[w]).id != "" && NotTakenBack(kind, cs, r)
  }

  ghost predicate SlotExplained(kind: Kind, cs: seq<ConfigOption>, s: Slot) {
    && ((forall j :: 0 <= j < |cs| ==> !OpOf(kind, cs[j]).Randomize?) ==> Settled(s))
    && forall r :: LastRandomize(kind, cs, r) ==>
         && !s.resolved
         && (s.random <==> NotTakenBack(kind, cs, r))
         && (forall w :: LastSetAfter(kind, cs, r, w) ==> s.id == OpOf(kind, cs[w]).id)
         && (NoSetAfter(kind, cs, r) ==> s.id == "")
  }

  lemma ApplyMovesSlot(kind: Kind, o: Opts, c: ConfigOption)
    requires Apply(o, c).Ok?
    ensures SlotOf(kind, Apply(o, c).value) == SlotStep(SlotOf(kind, o), OpOf(kind, c))
  {
    if ResourceOption(c) {
      hide Or;
    } else {
      OtherOptionsKeepResources(o, c);
      hide Apply, Or;
    }
  }

  lemma SlotExtends(kind: Kind, front: seq<ConfigOption>, c: ConfigOption, s: Slot)
    requires SlotExplained(kind, front, s)
    ensures SlotExplained(kind, front + [c], SlotStep(s, OpOf(kind, c)))
  {
    hide OpOf;
    var cs := front + [c];
    var n := |front|;
    var t := SlotStep(s, OpOf(kind, c));
    assert forall j :: 0 <= j < n ==> cs[j] == front[j];
    assert cs[n] == c;
    if forall j :: 0 <= j < |cs| ==> !OpOf(kind, cs[j]).Randomize? {
      assert !OpOf(kind, cs[n]).Randomize?;
      assert forall j :: 0 <= j < n ==> !OpOf(kind, front[j]).Randomize?;
    }
    forall r | LastRandomize(kind, cs, r)
      ensures !t.resolved
      ensures t.random <==> NotTakenBack(kind, cs, r)
      ensures forall w :: LastSetAfter(kind, cs, r, w) ==> t.id == OpOf(kind, cs[w]).id
      ensures NoSetAfter(kind, cs, r) ==> t.id == ""
    {
      if r < n {
        assert !OpOf(kind, cs[n]).Randomize?;
        assert LastRandomize(kind, front, r);
        assert NotTakenBack(kind, cs, r) <==> NotTakenBack(kind, front, r) && !OpOf(kind, cs[n]).Derandomize?;
        assert NoSetAfter(kind, cs, r) <==> NoSetAfter(kind, front, r) && !OpOf(kind, cs[n]).SetId?;
        forall w | LastSetAfter(kind, cs, r, w) ensures t.id == OpOf(kind, cs[w]).id {
          if w < n {
            assert !OpOf(kind, cs[n]).SetId?;
            assert LastSetAfter(kind, front, r, w);
          }
        }
      }
    }
  }

  lemma {:induction false} SlotOfList(kind: Kind, base: Opts, cs: seq<ConfigOption>)
    requires Settled(SlotOf(kind, base))
    requires ApplyAll(base, cs).Ok?
    ensures SlotExplained(kind, cs, SlotOf(kind, ApplyAll(base, cs).value))
    decreases |cs|
  {
    hide Apply, OpOf, SlotStep;
    if cs == [] {
    } else {
      var n := |cs| - 1;
      ApplyAllSnoc(base, cs);
      SlotOfList(kind, base, cs[..n]);
      var mid := ApplyAll(base, cs[..n]).value;
      ApplyMovesSlot(kind, mid, cs[n]);
      SlotExtends(kind, cs[..n], cs[n], SlotOf(kind, mid));
      assert cs == cs[..n] + [cs[n]];
    }
  }

  /** The last index of a randomizing option, or of a setting one after r. */
  lemma {:induction false} FindLast(kind: Kind, cs: seq<ConfigOption>, from: nat, randomize: bool) returns (k: int)
    requires from <= |cs|
    ensures k == -1 || (from <= k < |cs| && if randomize then OpOf(kind, cs[k]).Randomize?
              else OpOf(kind, cs[k]).SetId?)
    ensures forall j :: from <= j < |cs| && k < j ==>
              if randomize then !OpOf(kind, cs[j]).Randomize? else !OpOf(kind, cs[j]).SetId?
  {
    k := |cs| - 1;
    while k >= from && (if randomize then !OpOf(kind, cs[k]).Randomize? else !OpOf(kind, cs[k]).SetId?)
      invariant from - 1 <= k < |cs|
      invariant forall j :: k < j < |cs| ==>
                if randomize then !OpOf(kind, cs[j]).Randomize? else !OpOf(kind, cs[j]).SetId?
    {
      k := k - 1;
    }
    if k < from {
      k := -1;
    }
  }

  lemma ExplainedVerdict(kind: Kind, cs: seq<ConfigOption>, s: Slot)
    requires SlotExplained(kind, cs, s)
    ensures Clashes(s) <==> AsksForBoth(kind, cs)
  {
    hide OpOf;
    var r := FindLast(kind, cs, 0, true);
    if r >= 0 {
      assert LastRandomize(kind, cs, r);
      var w := FindLast(kind, cs, r + 1, false);
      if w < 0 {
        assert NoSetAfter(kind, cs, r);
      } else {
        assert LastSetAfter(kind, cs, r, w);
      }
    }
  }

  /** For every base and every accepted list, whether an ID clashes is decided by the
      list alone. */
  lemma ConflictVerdict(kind: Kind, base: Opts, cs: seq<ConfigOption>)
    requires SettledBase(base)
    requires ApplyAll(base, cs).Ok?
    ensures Clashes(SlotOf(kind, ApplyAll(base, cs).value)) <==> AsksForBoth(kind, cs)
  {
    SlotOfList(kind, base, cs);
    ExplainedVerdict(kind, cs, SlotOf(kind, ApplyAll(base, cs).value));
  }

  /** finalizeOptions reports a conflict exactly when the list asks for it, the
      project's before the instance's before the database's. */
  lemma EmulatorConflicts(base: Opts, cs: seq<ConfigOption>, rnd: Randoms, env: ProviderEnv)
    requires SettledBase(base)
    requires ApplyAll(base, cs).Ok?
    ensures var f := ApplyAndFinalize(Emulator, base, cs, rnd, env);
      && (f == Err(ProjectConflict) <==> AsksForBoth(Kind.Project, cs))
      && (f == Err(InstanceConflict) <==> !AsksForBoth(Kind.Project, cs) && AsksForBoth(Kind.Instance, cs))
      && (f == Err(DatabaseConflict) <==>
            !AsksForBoth(Kind.Project, cs) && !AsksForBoth(Kind.Instance, cs) && AsksForBoth(Kind.Database, cs))
  {
    hide Generate, FillDefaults, InvalidResource, AsksForBoth;
    ConflictVerdict(Kind.Project, base, cs);
    ConflictVerdict(Kind.Instance, base, cs);
    ConflictVerdict(Kind.Database, base, cs);
  }

  /** finalizeOmniOptions agrees, except that a guardrail speaks before the database
      conflict. */
  lemma OmniConflicts(base: Opts, cs: seq<ConfigOption>, rnd: Randoms, env: ProviderEnv)
    requires SettledBase(base)
    requires ApplyAll(base, cs).Ok?
    ensures var f := ApplyAndFinalize(Omni, base, cs, rnd, env);
      && (f == Err(ProjectConflict) <==> AsksForBoth(Kind.Project, cs))
      && (f == Err(InstanceConflict) <==> !AsksForBoth(Kind.Project, cs) && AsksForBoth(Kind.Instance, cs))
      && (f == Err(DatabaseConflict) <==>
            && !AsksForBoth(Kind.Project, cs) && !AsksForBoth(Kind.Instance, cs) && AsksForBoth(Kind.Database, cs)
            && OmniGuardrail(ApplyAll(base, cs).value) == None)
  {
    hide Generate, FillDefaults, InvalidResource, AsksForBoth, OmniGuardrail;
    ConflictVerdict(Kind.Project, base, cs);
    ConflictVerdict(Kind.Instance, base, cs);
    ConflictVerdict(Kind.Database, base, cs);
  }

  lemma FinishKeepsResolved(backend: Backend, o: Opts, env: ProviderEnv)
    requires Finish(backend, o, env).Ok?
    ensures var f := Finish(backend, o, env).value;
      f.randomDatabaseID == o.randomDatabaseID && f.randomDatabaseIDResolved == o.randomDatabaseIDResolved
  {
    hide Or, DefaultsOf, ClientConfigOf, InvalidResource, DescriptorsHaveWork;
  }

  /** A finalized record never has a random database ID still to be generated. */
  lemma FinalizedIsResolved(backend: Backend, o: Opts, rnd: Randoms, env: ProviderEnv)
    requires Finalize(backend, o, rnd, env).Ok?
    ensures var f := Finalize(backend, o, rnd, env).value; f.randomDatabaseID ==> f.randomDatabaseIDResolved
  {
    FinalizeFinishes(backend, o, rnd, env);
    assert Generate(o, rnd).randomDatabaseID ==> Generate(o, rnd).randomDatabaseIDResolved;
    hide Generate, Finalize;
    FinishKeepsResolved(backend, Generate(o, rnd), env);
  }

  /** The fresh base, every inherited base, and every attached base made from options
      that went through a finalizer are settled. */
  lemma BasesAreSettled(backend: Backend, o: Opts, rnd: Randoms, env: ProviderEnv, source: Opts)
    ensures SettledBase(ZERO) && SettledBase(InheritedBase(backend, source))
    ensures Finalize(backend, o, rnd, env).Ok? ==> SettledBase(AttachedBase(Finalize(backend, o, rnd, env).value))
  {
    hide Finalize;
    if Finalize(backend, o, rnd, env).Ok? {
      FinalizedIsResolved(backend, o, rnd, env);
    }
  }

  /** No guardrail objects to what a list makes of a base. */
  predicate GuardrailsSilent(base: Opts, cs: seq<ConfigOption>) {
    ApplyAll(base, cs).Ok? ==> OmniGuardrail(ApplyAll(base, cs).value) == None
  }

  lemma {:induction false} NoListConflict(o: Opts, cs: seq<ConfigOption>)
    ensures ApplyAll(o, cs) != Err(DatabaseConflict)
    decreases |cs|
  {
    if cs == [] {
    } else {
      match Apply(o, cs[0])
      case Err(_) =>
      case Ok(next) => NoListConflict(next, cs[1..]);
    }
  }

  /** The database verdict is the same on any two settled bases; for Omni, when no
      guardrail speaks before it. */
  lemma VerdictIgnoresBase(backend: Backend, a: Opts, b: Opts, cs: seq<ConfigOption>, rnd: Randoms, env: ProviderEnv)
    requires SettledBase(a) && SettledBase(b)
    requires backend == Omni ==> GuardrailsSilent(a, cs) && GuardrailsSilent(b, cs)
    ensures ApplyAndFinalize(backend, a, cs, rnd, env) == Err(DatabaseConflict)
       <==> ApplyAndFinalize(backend, b, cs, rnd, env) == Err(DatabaseConflict)
  {
    hide Generate, FillDefaults, InvalidResource, AsksForBoth, Apply, Finish, OmniGuardrail;
    ListErrorsIgnoreBase(a, b, cs);
    if ApplyAll(a, cs).Err? {
      NoListConflict(a, cs);
      NoListConflict(b, cs);
    } else if backend == Emulator {
      EmulatorConflicts(a, cs, rnd, env);
      EmulatorConflicts(b, cs, rnd, env);
    } else {
      OmniConflicts(a, cs, rnd, env);
      OmniConflicts(b, cs, rnd, env);
    }
  }

  // ------------------------------------------------------------------------
  // Finalizing again
  // ------------------------------------------------------------------------

  lemma FillDefaultsIsIdentity(backend: Backend, o: Opts)
    requires o.image != "" && o.projectID != "" && o.instanceID != "" && o.databaseID != ""
    ensures FillDefaults(backend, o) == o
  {
  }

  lemma FilledIsNonempty(backend: Backend, o: Opts)
    ensures var f := FillDefaults(backend, o);
      f.image != "" && f.projectID != "" && f.instanceID != "" && f.databaseID != ""
  {
  }

  /** The client configuration is a fixed point of its own merge. */
  lemma ClientConfigIdempotent(backend: Backend, o: Opts)
    ensures FillClientConfig(backend, FillClientConfig(backend, o)) == FillClientConfig(backend, o)
  {
  }

  lemma ProviderEnvIdempotent(o: Opts, env: ProviderEnv)
    requires ApplyProviderEnv(o, env).Ok?
    ensures ApplyProviderEnv(ApplyProviderEnv(o, env).value, env) == ApplyProviderEnv(o, env)
  {
  }

  /** What the checks of a finalizer read. */
  function Checked(o: Opts): (string, string, string, string, bool) {
    (o.image, o.projectID, o.instanceID, o.databaseID, o.disableBackendGuardrails)
  }

  lemma SameCheckedSameVerdict(a: Opts, b: Opts)
    ensures Checked(a) == Checked(b) ==> InvalidResource(a) == InvalidResource(b)
  {
  }

  /** The two last stages leave alone what the earlier ones check. */
  lemma LateStagesKeepChecks(backend: Backend, filled: Opts, env: ProviderEnv)
    requires ApplyProviderEnv(FillClientConfig(backend, filled), env).Ok?
    ensures var configured := FillClientConfig(backend, filled);
      var done := ApplyProviderEnv(configured, env).value;
      && InvalidResource(done) == InvalidResource(filled)
      && Checked(done) == Checked(filled) && done.clientConfig == configured.clientConfig
  {
    hide ClientConfigOf, InvalidResource;
    SameCheckedSameVerdict(ApplyProviderEnv(FillClientConfig(backend, filled), env).value, filled);
  }

  lemma ClientConfigIsFixed(backend: Backend, filled: Opts, done: Opts)
    requires done.clientConfig == FillClientConfig(backend, filled).clientConfig
    requires done.disableBackendGuardrails == filled.disableBackendGuardrails
    ensures FillClientConfig(backend, done) == done
  {
  }

  /** What every finished record satisfies. */
  lemma FinishedShape(backend: Backend, o: Opts, env: ProviderEnv)
    requires Finish(backend, o, env).Ok?
    ensures var f := Finish(backend, o, env).value;
      && InvalidResource(f) == None
      && f.image != "" && f.projectID != "" && f.instanceID != "" && f.databaseID != ""
      && FillClientConfig(backend, f) == f
      && ApplyProviderEnv(f, env) == Ok(f)
      && DescriptorsHaveWork(f)
  {
    var filled := FillDefaults(backend, o);
    var configured := FillClientConfig(backend, filled);
    hide FillDefaults, FillClientConfig, ApplyProviderEnv, InvalidResource, DescriptorsHaveWork;
    LateStagesKeepChecks(backend, filled, env);
    FilledIsNonempty(backend, o);
    ClientConfigIsFixed(backend, filled, ApplyProviderEnv(configured, env).value);
    ProviderEnvIdempotent(configured, env);
  }

  /** Finishing a finished record changes nothing. */
  lemma FinishIdempotent(backend: Backend, o: Opts, env: ProviderEnv)
    requires Finish(backend, o, env).Ok?
    ensures Finish(backend, Finish(backend, o, env).value, env) == Finish(backend, o, env)
  {
    FinishedShape(backend, o, env);
    FillDefaultsIsIdentity(backend, Finish(backend, o, env).value);
    hide FillDefaults, FillClientConfig, ApplyProviderEnv, InvalidResource, DescriptorsHaveWork;
  }

  lemma NothingToGenerate(o: Opts, rnd: Randoms)
    requires SettledBase(o)
    ensures Generate(o, rnd) == o
    ensures !ProjectClash(o) && !InstanceClash(o) && !DatabaseClash(o)
  {
  }

  /** Under guardrails the accepted IDs are the fixed ones. */
  lemma GuardedIds(o: Opts, rnd: Randoms)
    requires !o.disableBackendGuardrails && OmniGuardrail(o) == None
    ensures var f := FillDefaults(Omni, Generate(o, rnd));
      f.projectID == DEFAULT_OMNI_PROJECT_ID && f.instanceID == DEFAULT_OMNI_INSTANCE_ID
  {
  }

  lemma FinishKeepsIds(backend: Backend, o: Opts, env: ProviderEnv)
    requires Finish(backend, o, env).Ok?
    ensures var f := Finish(backend, o, env).value;
      f.projectID == FillDefaults(backend, o).projectID && f.instanceID == FillDefaults(backend, o).instanceID
  {
    hide FillDefaults, InvalidResource, DescriptorsHaveWork;
    LateStagesKeepChecks(backend, FillDefaults(backend, o), env);
  }

  predicate GuardedOrFree(o: Opts) {
    || o.disableBackendGuardrails
    || (o.projectID == DEFAULT_OMNI_PROJECT_ID && o.instanceID == DEFAULT_OMNI_INSTANCE_ID)
  }

  /** What passed the Omni guardrails once passes them again. */
  lemma GuardrailsPassAgain(o: Opts, rnd: Randoms, env: ProviderEnv)
    requires FinalizeOmni(o, rnd, env).Ok?
    ensures var f := FinalizeOmni(o, rnd, env).value;
      && OmniGuardrail(f) == None
      && GuardedOrFree(f)
  {
    var f := FinalizeOmni(o, rnd, env).value;
    FinalizeFinishes(Omni, o, rnd, env);
    FinalizeKeepsPolicy(Omni, o, rnd, env);
    FinishKeepsIds(Omni, Generate(o, rnd), env);
    if !o.disableBackendGuardrails {
      GuardedIds(o, rnd);
    }
    assert OmniGuardrail(o) == None;
    hide Finish, Generate, FillDefaults;
  }

  /** Finalizing a finalized record gives it back exactly when neither the project nor
      the instance ID is random: those two flags have no "resolved" mark, so their own
      generated IDs are then reported as a conflict. The same holds for both backends. */
  lemma RefinalizeExactly(backend: Backend, o: Opts, rnd: Randoms, env: ProviderEnv, rnd': Randoms)
    requires Finalize(backend, o, rnd, env).Ok?
    ensures var f := Finalize(backend, o, rnd, env).value;
      Finalize(backend, f, rnd', env) == Ok(f) <==> !f.randomProjectID && !f.randomInstanceID
  {
    var f := Finalize(backend, o, rnd, env).value;
    FinalizeFinishes(backend, o, rnd, env);
    FinishedShape(backend, Generate(o, rnd), env);
    FinishIdempotent(backend, Generate(o, rnd), env);
    FinalizedIsResolved(backend, o, rnd, env);
    if !f.randomProjectID && !f.randomInstanceID {
      NothingToGenerate(f, rnd');
      if backend == Omni {
        GuardrailsPassAgain(o, rnd, env);
      }
    }
    hide Finish, Generate, OmniGuardrail;
  }

  lemma DefaultsAreValid()
    ensures ValidId(Kind.Instance, DEFAULT_INSTANCE_ID) && ValidId(Kind.Database, DEFAULT_DATABASE_ID)
    ensures |DEFAULT_INSTANCE_ID| > 0 && |DEFAULT_DATABASE_ID| > 0
  {
  }

  /** A random project ID, finalized once, is a conflict the second time. */
  lemma RandomProjectRefinalized(rnd: Randoms, rnd': Randoms)
    requires rnd.Valid()
    ensures var once := FinalizeEmulator(ZERO.(randomProjectID := true), rnd, Unset);
      once.Ok? && FinalizeEmulator(once.value, rnd', Unset) == Err(ProjectConflict)
  {
    RandomShapeIsValid(Kind.Project, rnd.project);
    DefaultsAreValid();
    hide ValidId, RandomShape;
    var o := Generate(ZERO.(randomProjectID := true), rnd);
    var filled := FillDefaults(Emulator, o);
    assert InvalidResource(filled) == None;
    assert DescriptorsHaveWork(FillClientConfig(Emulator, filled));
  }

  // ------------------------------------------------------------------------
  // The attached runtime's shortcut
  // ------------------------------------------------------------------------

  /** What an attached runtime hands on: everything its constructor settled about IDs,
      creation of databases, teardown, guardrails, setup work and clients; instance
      creation, container settings and the image are dropped. */
  function AttachedClosedForm(source: Opts): Opts {
    source.(image := "", randomProjectID := false, randomInstanceID := false, disableCreateInstance := true,
            reuseExistingDatabase := true, containerCustomizers := [], containerProviderSet := false,
            gatewayFlags := [])
  }

  lemma AttachedBaseClosedForm(source: Opts)
    ensures AttachedBase(source) == AttachedClosedForm(source)
  {
  }

  /** Equal in every field but the image default and the container provider. */
  predicate SameButContainer(a: Opts, b: Opts) {
    b == a.(image := b.image, containerCustomizers := b.containerCustomizers,
        containerProviderSet := b.containerProviderSet)
  }

  /** Finishing a record that only lacks its image: it fails exactly on an unparseable
      provider variable. */
  lemma FinishWithoutImage(backend: Backend, short: Opts, env: ProviderEnv)
    requires short.projectID != "" && short.instanceID != "" && short.databaseID != ""
    requires InvalidResource(short) == None && DescriptorsHaveWork(short)
    requires FillClientConfig(backend, short) == short
    requires !short.containerProviderSet
    ensures Finish(backend, short, env).Ok? <==> env != Unparseable
    ensures env == Unparseable ==> Finish(backend, short, env) == Err(BadProviderEnv)
    ensures env != Unparseable ==> SameButContainer(short, Finish(backend, short, env).value)
  {
    var filled := FillDefaults(backend, short);
    assert filled == short.(image := filled.image) by {
      hide DefaultsOf;
    }
    hide FillDefaults, ClientConfigOf, ValidId;
    assert FillClientConfig(backend, filled) == filled by {
      ClientConfigIsFixed(backend, short, filled);
    }
    assert InvalidResource(filled) == InvalidResource(short);
  }

  /** With nothing to generate and no guardrail in the way, finalizing is finishing. */
  lemma FinalizeOfSettled(backend: Backend, o: Opts, rnd: Randoms, env: ProviderEnv)
    requires SettledBase(o) && (backend == Omni ==> OmniGuardrail(o) == None)
    ensures Finalize(backend, o, rnd, env) == Finish(backend, o, env)
  {
  }

  /** The base of an attached runtime passes every check its source passed. */
  lemma ShortcutChecks(backend: Backend, source: Opts)
    requires source.randomDatabaseID ==> source.randomDatabaseIDResolved
    requires backend == Omni ==> GuardedOrFree(source)
    requires InvalidResource(source) == None && DescriptorsHaveWork(source)
    requires FillClientConfig(backend, source) == source
    ensures var short := AttachedBase(source);
      && SettledBase(short) && (backend == Omni ==> OmniGuardrail(short) == None)
      && InvalidResource(short) == None && DescriptorsHaveWork(short)
      && FillClientConfig(backend, short) == short
      && !short.containerProviderSet
      && short.projectID == source.projectID && short.instanceID == source.instanceID
          && short.databaseID == source.databaseID
  {
  }

  lemma ShortcutOfFinalized(backend: Backend, o: Opts, rnd: Randoms, env: ProviderEnv, rnd': Randoms, env': ProviderEnv)
    requires Finalize(backend, o, rnd, env).Ok?
    ensures var short := AttachedBase(Finalize(backend, o, rnd, env).value);
      var full := Finalize(backend, short, rnd', env');
      && (full.Ok? <==> env' != Unparseable)
      && (full.Ok? ==> SameButContainer(short, full.value))
      && (full.Err? ==> full == Err(BadProviderEnv))
  {
    var source := Finalize(backend, o, rnd, env).value;
    var short := AttachedBase(source);
    FinalizeFinishes(backend, o, rnd, env);
    FinishedShape(backend, Generate(o, rnd), env);
    FinalizedIsResolved(backend, o, rnd, env);
    if backend == Omni {
      GuardrailsPassAgain(o, rnd, env);
    }
    hide Finalize, Finish, Generate;
    ShortcutChecks(backend, source);
    NothingToGenerate(short, rnd');
    FinishWithoutImage(backend, short, env');
    FinalizeOfSettled(backend, short, rnd', env');
  }

  /** For every attached runtime, built from any accepted option list: returning the
      base directly agrees with running the backend's full finalizer on it, which
      succeeds exactly unless the provider variable is then unparseable. */
  lemma ShortcutRefinesFullPath(backend: Backend, project: string, instance: string, cs: seq<ConfigOption>,
                                rnd: Randoms, env: ProviderEnv, rnd': Randoms, env': ProviderEnv)
    requires FinalizeAttached(backend, project, instance, cs, rnd, env).Ok?
    ensures var short := AttachedBase(FinalizeAttached(backend, project, instance, cs, rnd, env).value);
      var full := ApplyAndFinalize(backend, short, [], rnd', env');
      && (full.Ok? <==> env' != Unparseable)
      && (full.Ok? ==> SameButContainer(short, full.value))
      && (full.Err? ==> full == Err(BadProviderEnv))
  {
    var base := ZERO.(projectID := project, instanceID := instance, disableCreateInstance := true);
    var o := ApplyAll(base, cs).value;
    assert FinalizeAttached(backend, project, instance, cs, rnd, env) == Finalize(backend, o, rnd, env);
    ShortcutOfFinalized(backend, o, rnd, env, rnd', env');
    hide Finalize, AttachedBase;
  }
}
