/** The rows a fleet member holds and the envelope a primary sends it
    (internal/api/configsync.go). A table is a map keyed by the row's own id; a
    NULL column is None. */
module MemberTables {
  import opened Wrappers

  // A UUID.
  type Id = int

  /** A model's identity across members: provider name and provider-scoped id. */
  datatype ModelRef = ModelRef(providerName: string, modelId: string) {
    function ToString(): string { providerName + "/" + modelId }
  }

  datatype ProviderFields = ProviderFields(
    baseUrl: string, providerType: string, keyMaterial: string, maskedKey: Option<string>,
    enabled: bool, autodiscovery: bool, scheduledDisableOn: Option<string>, maxInFlight: Option<int>)

  datatype ProviderRow = ProviderRow(name: string, fields: ProviderFields, quotaReserve: int)

  datatype ModelRow = ModelRow(
    provider: Id, modelId: string,
    enabled: bool, disabledManually: bool,
    autoRetiredAt: Option<int>, discoveryDismissedAt: Option<int>,
    missingScans: nat, manuallyEnabledAt: Option<int>, capabilitiesCustomized: bool)

  /** A failover group row. None stands for a JSON column that does not parse;
      an id missing from entryEnabled counts as enabled. */
  datatype GroupRow = GroupRow(
    priority: Option<seq<Id>>, entryEnabled: Option<map<Id, bool>>, groupEnabled: bool,
    displayName: Option<string>, description: string, autoCreated: bool, autoDisabledAt: Option<int>)

  datatype Limits = Limits(rps: Option<real>, burst: Option<int>, tpm: Option<int>,
                           budgetUsd: Option<real>, budgetPeriod: Option<string>)

  datatype UserFields = UserFields(displayName: string, passwordHash: string, role: string,
                                   grants: seq<string>, enabled: bool, limits: Limits)

  /** ssoIdentity stands for the columns the import never writes. */
  datatype UserRow = UserRow(username: string, email: Option<string>, fields: UserFields,
                             allowedProviders: Option<seq<Id>>, ssoIdentity: Option<string>)

  datatype KeyFields = KeyFields(name: string, preview: string, limits: Limits, stripReasoning: bool)

  /** A virtual key row, stored under its hash. */
  datatype KeyRow = KeyRow(fields: KeyFields, allowedProviders: Option<seq<Id>>, owner: Option<Id>)

  // --- The envelope ---

  datatype ExportProvider = ExportProvider(name: string, fields: ProviderFields, quotaReserve: Option<int>)

  datatype ExportUser = ExportUser(username: string, email: Option<string>, fields: UserFields,
                                   allowedProviderNames: Option<seq<string>>)

  datatype ExportKey = ExportKey(keyHash: string, fields: KeyFields,
                                 allowedProviderNames: Option<seq<string>>, ownerUsername: Option<string>)

  datatype ExportEntry = ExportEntry(ref: ModelRef, enabled: bool)

  datatype ExportGroup = ExportGroup(
    displayModel: string, displayName: Option<string>, description: string,
    groupEnabled: bool, autoCreated: bool, entries: seq<ExportEntry>)

  /** The config body. None is a section the envelope omits (a nil slice or map),
      which is not the same as an empty one. */
  datatype Envelope = Envelope(
    providers: seq<ExportProvider>,
    virtualKeys: Option<seq<ExportKey>>,
    settings: Option<map<string, string>>,
    failoverGroups: Option<seq<ExportGroup>>,
    users: Option<seq<ExportUser>>,
    disabledModels: Option<seq<ModelRef>>,
    enabledModels: Option<seq<ModelRef>>)

  // --- Marker rows kept in the settings table under _fleet_* keys ---

  /** A stored decimal: no row, a row that parses, or a row that does not. */
  datatype StoredNumber = NoRow | Number(n: int) | Unparseable

  datatype Member = Member(
    providers: map<Id, ProviderRow>,
    models: map<Id, ModelRow>,
    groups: map<string, GroupRow>,
    users: map<Id, UserRow>,
    keys: map<string, KeyRow>,
    settings: map<string, string>,
    unappliedDisables: Option<seq<ModelRef>>,
    unappliedEnables: Option<seq<ModelRef>>,
    autoEcho: Option<seq<ExportGroup>>,
    importSeq: StoredNumber,
    sourceGen: StoredNumber)
  {
    /** The models-to-providers join: the ref a model row answers to. */
    function RefOf(id: Id): Option<ModelRef> {
      if id in models && models[id].provider in providers
      then Some(ModelRef(providers[models[id].provider].name, models[id].modelId))
      else None
    }

    ghost predicate Present(ref: ModelRef) {
      exists id :: id in models && RefOf(id) == Some(ref)
    }

    /** A model routes only when its own flag and its provider's are both on. */
    predicate Routable(id: Id) {
      id in models && models[id].provider in providers
      && models[id].enabled && providers[models[id].provider].fields.enabled
    }

    /** UNIQUE(provider_id, model_id) and the provider name index, seen through the join. */
    ghost predicate RefsUnique() {
      forall i, j :: i in models && j in models && RefOf(i).Some? && RefOf(i) == RefOf(j) ==> i == j
    }
  }

  /** The form routing uses: spaces become hyphens. */
  function NormalizeName(name: string): (n: string)
    ensures |n| == |name|
  {
    if name == "" then ""
    else NormalizeName(name[..|name| - 1]) + if name[|name| - 1] == ' ' then "-" else [name[|name| - 1]]
  }

  // --- The constraints the database itself keeps ---

  /** Provider names are unique in the normalized form (migration 082), so in the raw one. */
  ghost predicate ProviderNamesUnique(providers: map<Id, ProviderRow>) {
    forall i, j :: i in providers && j in providers && i != j ==>
      NormalizeName(providers[i].name) != NormalizeName(providers[j].name)
  }

  ghost predicate UsernamesUnique(users: map<Id, UserRow>) {
    forall i, j :: i in users && j in users && i != j ==> users[i].username != users[j].username
  }

  ghost predicate EmailsUnique(users: map<Id, UserRow>) {
    forall i, j :: i in users && j in users && i != j && users[i].email.Some? ==> users[i].email != users[j].email
  }

  /** Every model hangs off a provider, and a provider lists a model id once. */
  ghost predicate ModelsKeyed(providers: map<Id, ProviderRow>, models: map<Id, ModelRow>) {
    && (forall i :: i in models ==> models[i].provider in providers)
    && (forall i, j :: i in models && j in models && i != j ==>
          models[i].provider != models[j].provider || models[i].modelId != models[j].modelId)
  }

  /** A key's owner is an account, or nobody (migration 051). */
  ghost predicate OwnersHeld(users: map<Id, UserRow>, keys: map<string, KeyRow>) {
    forall h :: h in keys && keys[h].owner.Some? ==> keys[h].owner.value in users
  }

  ghost predicate Constrained(db: Member) {
    && ProviderNamesUnique(db.providers)
    && ModelsKeyed(db.providers, db.models)
    && UsernamesUnique(db.users)
    && EmailsUnique(db.users)
    && OwnersHeld(db.users, db.keys)
  }

  lemma ConstrainedRefsUnique(db: Member)
    requires Constrained(db)
    ensures db.RefsUnique()
  {
    forall i, j | i in db.models && j in db.models && db.RefOf(i) == db.RefOf(j) ensures i == j {
      assert NormalizeName(db.providers[db.models[i].provider].name) == NormalizeName(db.providers[db.models[j].provider].name);
    }
  }
}
