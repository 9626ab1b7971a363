/** What a committed import leaves, row by row and in the envelope's own terms
    (internal/api/configsync_apply.go and configsync_apply_upserts.go). */
module CommittedRows {
  import opened Wrappers
  import opened MemberTables
  import opened ImportFence
  import opened CoreImport

  /** The names of the providers the import leaves, and where each is. */
  ghost predicate LooksUp(providers: map<Id, ProviderRow>, lookup: map<string, Id>) {
    && (forall id :: id in providers ==> providers[id].name in lookup && lookup[providers[id].name] == id)
    && (forall name :: name in lookup ==> lookup[name] in providers && providers[lookup[name]].name == name)
  }

  lemma OneLookup(providers: map<Id, ProviderRow>, lookup: map<string, Id>)
    requires ProviderNamesUnique(providers) && LooksUp(providers, lookup)
    ensures NameToId(providers) == lookup
  {
    var built := NameToId(providers);
    forall name | name in built ensures name in lookup && built[name] == lookup[name] {
      var id :| id in providers && providers[id].name == name;
    }
    forall name | name in lookup ensures name in built {
      var id := lookup[name];
      assert id in providers && providers[id].name == name;
    }
    assert built.Keys == lookup.Keys;
  }

  // --- Providers ---

  /** The provider as listed, its type declared or derived; the reserve as stated, else as held, else none. */
  ghost predicate ProviderOf(policy: Policy, p: ExportProvider, held: Option<ProviderRow>, row: ProviderRow) {
    && row.name == p.name
    && row.fields.baseUrl == p.fields.baseUrl && row.fields.providerType == policy.providerType(p)
    && row.fields.keyMaterial == p.fields.keyMaterial && row.fields.maskedKey == p.fields.maskedKey
    && row.fields.enabled == p.fields.enabled && row.fields.autodiscovery == p.fields.autodiscovery
    && row.fields.scheduledDisableOn == p.fields.scheduledDisableOn && row.fields.maxInFlight == p.fields.maxInFlight
    && (p.quotaReserve.Some? ==> row.quotaReserve == p.quotaReserve.value)
    && (p.quotaReserve.None? && held.Some? ==> row.quotaReserve == held.value.quotaReserve)
    && (p.quotaReserve.None? && held.None? ==> row.quotaReserve == 0)
  }

  function RowAt<T>(rows: map<Id, T>, id: Id): Option<T> { if id in rows then Some(rows[id]) else None }

  /** Every listed provider has its row, under its old id if this member held the name in any spelling. */
  lemma ProviderRows(policy: Policy, db: Member, env: Envelope, gen: Option<int>, after: Member, k: nat)
    requires CoreStep(policy, db, env, gen, after) && k < |env.providers|
    ensures exists id :: id in after.providers && ProviderOf(policy, env.providers[k], RowAt(db.providers, id), after.providers[id])
                         && (Holds(db.providers, env.providers[k].name) ==>
                               id in db.providers && SameName(db.providers[id].name, env.providers[k].name))
  {
    var p := env.providers[k];
    assert HasRowOf(policy, db.providers, p, after.providers);
    var id :| id in after.providers && RowOf(policy, db.providers, p, id, after.providers[id]);
    assert ProviderOf(policy, p, RowAt(db.providers, id), after.providers[id]);
  }

  // --- Models ---

  /** A type whose capabilities nobody sets by hand. */
  ghost predicate Unserved(policy: Policy, ps: seq<ExportProvider>, name: string) {
    exists k :: 0 <= k < |ps| && ps[k].name == name && !policy.operatorServed(policy.providerType(ps[k]))
  }

  /** A model goes exactly with its provider; one that stays only ever loses its capability pin, and
      does exactly where its provider's type has no hand-set capabilities. */
  lemma ModelRows(policy: Policy, db: Member, env: Envelope, gen: Option<int>, after: Member, id: Id)
    requires CoreStep(policy, db, env, gen, after)
    ensures id in after.models <==> id in db.models && db.models[id].provider in after.providers
    ensures id in after.models ==>
              var row, was := after.models[id], db.models[id];
              && row == was.(capabilitiesCustomized := row.capabilitiesCustomized)
              && (row.capabilitiesCustomized
                  <==> was.capabilitiesCustomized && !Unserved(policy, env.providers, after.providers[was.provider].name))
  {
    if id in after.models {
      var name := after.providers[db.models[id].provider].name;
      assert Releases(policy, env.providers, name) <==> Unserved(policy, env.providers, name);
    }
  }

  // --- Accounts ---

  /** The ids that are not gone, one for each and in their order. */
  ghost predicate LeftAt(ids: seq<Id>, gone: set<Id>, left: seq<Id>, at: seq<int>) {
    && |at| == |left|
    && (forall i :: 0 <= i < |at| ==> 0 <= at[i] < |ids| && ids[at[i]] !in gone && left[i] == ids[at[i]])
    && (forall i, j :: 0 <= i < j < |at| ==> at[i] < at[j])
    && (forall k :: 0 <= k < |ids| && ids[k] !in gone ==> k in at)
  }

  ghost predicate CapLeft(was: Option<seq<Id>>, gone: set<Id>, cap: Option<seq<Id>>) {
    && (cap.None? <==> was.None?)
    && (was.Some? ==> exists at :: LeftAt(was.value, gone, cap.value, at))
  }

  lemma {:induction false} WithoutLeaves(ids: seq<Id>, gone: set<Id>) returns (at: seq<int>)
    ensures LeftAt(ids, gone, Without(ids, gone), at)
  {
    at := [];
    if ids != [] {
      var n := |ids| - 1;
      var before := WithoutLeaves(ids[..n], gone);
      assert forall k :: 0 <= k < n ==> ids[..n][k] == ids[k];
      at := if ids[n] in gone then before else before + [n];
      assert ids[n] !in gone ==> at[|before|] == n;
      forall k | 0 <= k < |ids| && ids[k] !in gone ensures k in at {
        if k < n {
          assert k in before;
        }
      }
    }
  }

  lemma PrunedLeaves(was: Option<seq<Id>>, gone: set<Id>)
    ensures CapLeft(was, gone, PrunedList(was, gone))
  {
    if was.Some? {
      var at := WithoutLeaves(was.value, gone);
    }
  }

  /** The account of each listed username has everything its last entry states, its cap among it. */
  lemma AccountRows(policy: Policy, db: Member, env: Envelope, gen: Option<int>, after: Member, lookup: map<string, Id>, k: nat)
    requires CoreStep(policy, db, env, gen, after) && LooksUp(after.providers, lookup)
    requires env.users.Some? && LastWord(env.users.value, k)
    ensures exists id :: id in after.users
                         && AccountOf(env.users.value[k], lookup,
                                      if id in db.users then db.users[id].ssoIdentity else None, after.users[id])
  {
    var us := env.users.value;
    OneLookup(after.providers, lookup);
    assert HasUser(after.users, us[k].username);
    var id :| id in after.users && after.users[id].username == us[k].username;
  }

  /** Without the section every account stays, but that deleted providers leave its cap. */
  lemma AccountsLeft(policy: Policy, db: Member, env: Envelope, gen: Option<int>, after: Member, id: Id)
    requires CoreStep(policy, db, env, gen, after) && env.users.None?
    ensures id in after.users <==> id in db.users
    ensures id in db.users ==>
              && after.users[id] == db.users[id].(allowedProviders := after.users[id].allowedProviders)
              && CapLeft(db.users[id].allowedProviders, db.providers.Keys - after.providers.Keys, after.users[id].allowedProviders)
  {
    if id in db.users {
      PrunedLeaves(db.users[id].allowedProviders, db.providers.Keys - after.providers.Keys);
    }
  }

  // --- Virtual keys ---

  /** The row is the entry's key: its fields, its cap, and the account it names if there is one. */
  ghost predicate KeyOf(v: ExportKey, lookup: map<string, Id>, users: map<Id, UserRow>, row: KeyRow) {
    && row.fields == v.fields
    && CapOf(v.allowedProviderNames, lookup, row.allowedProviders)
    && (row.owner.Some? ==> v.ownerUsername.Some? && row.owner.value in users
                            && users[row.owner.value].username == v.ownerUsername.value)
    && (row.owner.None? ==> v.ownerUsername.None? || !HasUser(users, v.ownerUsername.value))
  }

  /** The row as it was, less the providers and the account that are gone. */
  ghost predicate KeyLeft(was: KeyRow, gone: set<Id>, users: map<Id, UserRow>, row: KeyRow) {
    && row.fields == was.fields
    && CapLeft(was.allowedProviders, gone, row.allowedProviders)
    && row.owner == if was.owner.Some? && was.owner.value in users then was.owner else None
  }

  /** The entry states a cap of which this member has no provider: it is not written. */
  predicate Unreachable(v: ExportKey, lookup: map<string, Id>) {
    v.allowedProviderNames.Some? && forall name :: name in v.allowedProviderNames.value ==> name !in lookup
  }

  ghost predicate LastWritten(vks: seq<ExportKey>, lookup: map<string, Id>, h: string, k: int) {
    && 0 <= k < |vks| && vks[k].keyHash == h && !Unreachable(vks[k], lookup)
    && forall j :: k < j < |vks| && vks[j].keyHash == h ==> Unreachable(vks[j], lookup)
  }

  ghost predicate NoneWritten(vks: seq<ExportKey>, lookup: map<string, Id>, h: string) {
    forall k :: 0 <= k < |vks| && vks[k].keyHash == h ==> Unreachable(vks[k], lookup)
  }

  lemma WrittenKeyOf(v: ExportKey, providers: map<Id, ProviderRow>, users: map<Id, UserRow>)
    requires ProviderNamesUnique(providers) && UsernamesUnique(users)
    ensures KeyOf(v, NameToId(providers), users, WrittenKey(v, NameToId(providers), UsernameToId(users)))
  {
    CapResolves(v.allowedProviderNames, NameToId(providers));
    var owners := UsernameToId(users);
    if v.ownerUsername.Some? {
      var name := v.ownerUsername.value;
      if name in owners {
        var id :| id in users && users[id].username == name;
        assert owners[name] == id;
      }
      if HasUser(users, name) {
        var id :| id in users && users[id].username == name;
        assert name in owners;
      }
    }
  }

  /** The keys left are the listed ones: each as its last written entry says, or, where none could be
      written, as this member held it. */
  lemma KeyRows(policy: Policy, db: Member, env: Envelope, gen: Option<int>, after: Member, lookup: map<string, Id>, h: string)
    requires Constrained(db) && CoreStep(policy, db, env, gen, after) && LooksUp(after.providers, lookup)
    ensures var vks := if env.virtualKeys.Some? then env.virtualKeys.value else [];
            if NoneWritten(vks, lookup, h) then
              && (h in after.keys <==> h in db.keys && exists k :: 0 <= k < |vks| && vks[k].keyHash == h)
              && (h in after.keys ==>
                    KeyLeft(db.keys[h], db.providers.Keys - after.providers.Keys, after.users, after.keys[h]))
            else
              h in after.keys && exists k :: LastWritten(vks, lookup, h, k) && KeyOf(vks[k], lookup, after.users, after.keys[h])
  {
    var vks := SentKeys(env);
    OneLookup(after.providers, lookup);
    var held := Disowned(PrunedKeys(db.keys, Gone(db, after.providers)), db.users.Keys - after.users.Keys);
    UpsertedKeysAt(held, vks, lookup, UsernameToId(after.users), h);
    if NoneWritten(vks, lookup, h) {
      assert AllSkipped(vks, lookup, h);
      if h in after.keys {
        PrunedLeaves(db.keys[h].allowedProviders, Gone(db, after.providers));
      }
    } else {
      var k :| LastSent(vks, lookup, h, k)
               && UpsertedKeys(held, vks, lookup, UsernameToId(after.users))[h] == WrittenKey(vks[k], lookup, UsernameToId(after.users));
      WrittenKeyOf(vks[k], after.providers, after.users);
      assert LastWritten(vks, lookup, h, k);
    }
  }

  // --- Settings ---

  const FALSE := {"0", "f", "F", "false", "FALSE", "False"}

  const NEVER_SYNCED := {
    "alert_apprise_api_url", "alert_apprise_targets", "session_idle_timeout_minutes",
    "oidc_enabled", "oidc_issuer_url", "oidc_client_id", "oidc_client_secret", "oidc_public_base_url",
    "github_sso_enabled", "github_client_id", "github_client_secret", "github_public_base_url"}

  function ValueOf(settings: map<string, string>, key: string): Option<string> {
    if key in settings then Some(settings[key]) else None
  }

  predicate Off(sent: map<string, string>, switch: string) { switch in sent && sent[switch] in FALSE }

  /** A setting that is synced is as sent, but that a retired switch sent as false is a zero ceiling;
      any other keeps its value. */
  lemma SettingRows(policy: Policy, db: Member, env: Envelope, gen: Option<int>, after: Member, key: string)
    requires CoreStep(policy, db, env, gen, after)
    ensures var sent := if env.settings.Some? then env.settings.value else map[];
            ValueOf(after.settings, key)
            == if key !in policy.allowedSettings || key in NEVER_SYNCED then ValueOf(db.settings, key)
               else if key == "circuit_breaker_quota_pin_max" && Off(sent, "circuit_breaker_quota_pin_enabled") then Some("0s")
               else if key == "circuit_breaker_backoff_max" && Off(sent, "circuit_breaker_backoff_enabled") then Some("0s")
               else ValueOf(sent, key)
  {
    assert Syncable(policy, key) <==> key in policy.allowedSettings && key !in NEVER_SYNCED;
  }

  // --- The checks and the two markers ---

  /** A commit is no older than the generation this member trusts, and leaves it as sent; its number
      is the next, or the first where none can be read. */
  lemma CommitMarkers(policy: Policy, db: Member, env: Envelope, gen: Option<int>, after: Member)
    requires CoreStep(policy, db, env, gen, after)
    ensures gen.None? ==> db.sourceGen.NoRow? && after.sourceGen.NoRow?
    ensures gen.Some? ==> after.sourceGen == Number(gen.value)
    ensures gen.Some? && db.sourceGen.Number? && 0 <= db.sourceGen.n <= 0x7fff_ffff ==> db.sourceGen.n <= gen.value
    ensures after.importSeq
            == if db.importSeq.Number? && 0 <= db.importSeq.n < 1_000_000_000_000_000_000 then Number(db.importSeq.n + 1) else Number(1)
  {
  }

  /** No commit empties the providers, drops a section this member relies on, or leaves no key where
      keys were held and sent. */
  lemma NothingWiped(policy: Policy, db: Member, env: Envelope, gen: Option<int>, after: Member)
    requires CoreStep(policy, db, env, gen, after)
    ensures db.providers != map[] ==> after.providers != map[]
    ensures db.keys != map[] ==> env.virtualKeys.Some? && (env.virtualKeys.value != [] ==> after.keys != map[])
    ensures forall key :: key in db.settings && key in policy.allowedSettings && key !in NEVER_SYNCED ==> env.settings.Some?
  {
    if db.providers != map[] {
      ProviderRows(policy, db, env, gen, after, 0);
    }
    forall key | key in db.settings && key in policy.allowedSettings && key !in NEVER_SYNCED ensures env.settings.Some? {
      assert Syncable(policy, key);
    }
  }
}
