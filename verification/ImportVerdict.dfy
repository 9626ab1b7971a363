/** When an import is refused and with which error, as its envelope and the database it finds decide it
    (internal/api/configsync_apply.go and configsync_apply_upserts.go). */
module ImportVerdict {
  import opened Wrappers
  import opened MemberTables
  import opened ImportFence
  import opened CoreImport

  // --- Accounts ---

  /** The account states a cap that names providers, none of them known. */
  predicate CapRefused(u: ExportUser, known: set<string>) {
    && u.allowedProviderNames.Some? && u.allowedProviderNames.value != []
    && forall name :: name in u.allowedProviderNames.value ==> name !in known
  }

  /** Entry i is the last of its username ahead of entry k. */
  predicate Standing(us: seq<ExportUser>, i: int, k: int)
    requires 0 <= k <= |us|
  {
    0 <= i < k && forall j :: i < j < k ==> us[j].username != us[i].username
  }

  /** Entry k gives an address that another account has by then. */
  ghost predicate EmailClash(us: seq<ExportUser>, k: int)
    requires 0 <= k < |us|
  {
    && us[k].email.Some?
    && exists i :: Standing(us, i, k) && us[i].username != us[k].username && us[i].email == us[k].email
  }

  ghost predicate UserFine(policy: Policy, us: seq<ExportUser>, known: set<string>, k: int)
    requires 0 <= k < |us|
  {
    policy.userOk(us[k]) && !CapRefused(us[k], known) && !EmailClash(us, k)
  }

  ghost predicate UsersFine(policy: Policy, us: seq<ExportUser>, known: set<string>) {
    forall k :: 0 <= k < |us| ==> UserFine(policy, us, known, k)
  }

  /** Entry k is the first that is not fine, and that is why. */
  ghost predicate FirstRefusedAt(policy: Policy, us: seq<ExportUser>, known: set<string>, k: int, error: ImportError) {
    && 0 <= k < |us|
    && (forall j :: 0 <= j < k ==> UserFine(policy, us, known, j))
    && !UserFine(policy, us, known, k)
    && error == if !policy.userOk(us[k]) then InvalidUser
                else if CapRefused(us[k], known) then UnresolvableUserProviders(us[k].username)
                else EmailTaken
  }

  ghost predicate UsersRefused(policy: Policy, us: seq<ExportUser>, known: set<string>, error: ImportError) {
    exists k :: FirstRefusedAt(policy, us, known, k, error)
  }

  /** Half way through the loop, an address is held exactly when an earlier entry stands on it. */
  lemma HeldIsClash(start: map<Id, UserRow>, us: seq<ExportUser>, lookup: map<string, Id>, mid: map<Id, UserRow>, k: nat)
    requires k < |us| && UsersUpserted(start, us[..k], lookup, mid) && forall id :: id in start ==> start[id].email.None?
    ensures EmailHeld(mid, us[k]) <==> EmailClash(us, k)
  {
    var before := us[..k];
    forall i | 0 <= i < k ensures Standing(us, i, k) <==> LastWord(before, i) {
    }
    if EmailHeld(mid, us[k]) {
      var id :| id in mid && mid[id].username != us[k].username && mid[id].email == us[k].email;
      assert ListsUsername(before, mid[id].username);
      var i := LastOf(before, mid[id].username);
      assert mid[id] == WrittenUser(before[i], lookup, if id in start then start[id].ssoIdentity else None);
      assert Standing(us, i, k);
    }
    if EmailClash(us, k) {
      var i :| Standing(us, i, k) && us[i].username != us[k].username && us[i].email == us[k].email;
      assert LastWord(before, i) && HasUser(mid, before[i].username);
      var id :| id in mid && mid[id].username == before[i].username;
      assert mid[id] == WrittenUser(before[i], lookup, if id in start then start[id].ssoIdentity else None);
    }
  }

  /** A listed username has a last entry. */
  lemma {:induction false} LastOf(us: seq<ExportUser>, name: string) returns (i: int)
    requires ListsUsername(us, name)
    ensures LastWord(us, i) && us[i].username == name
  {
    var n := |us| - 1;
    if us[n].username == name {
      i := n;
    } else {
      var k :| 0 <= k < |us| && us[k].username == name;
      assert us[..n][k].username == name;
      i := LastOf(us[..n], name);
      assert LastWord(us, i) by {
        forall j | i < j < |us| ensures us[j].username != us[i].username {
          assert j < n ==> us[..n][j] == us[j];
        }
      }
    }
  }

  // --- Virtual keys and settings ---

  /** Keys were held and sent, and none would be left: each entry's cap names no known provider, and
      this member holds none of the hashes. */
  predicate KeysEmptied(held: set<string>, vks: seq<ExportKey>, known: set<string>) {
    && held != {} && vks != []
    && forall k :: 0 <= k < |vks| ==>
         && vks[k].keyHash !in held
         && vks[k].allowedProviderNames.Some?
         && forall name :: name in vks[k].allowedProviderNames.value ==> name !in known
  }

  /** Settings that are synced are held here and the envelope has no settings at all. */
  ghost predicate SettingsDropped(policy: Policy, held: map<string, string>, sent: Option<map<string, string>>) {
    sent.None? && exists key :: key in held && Syncable(policy, key)
  }

  /** A synced setting's folded value is out of bounds. */
  ghost predicate SettingUnfit(policy: Policy, sent: map<string, string>) {
    exists key :: Syncable(policy, key) && FoldedValue(sent, key).Some? && !policy.settingOk(key, FoldedValue(sent, key).value)
  }

  /** No key left means just that. */
  lemma EmptiedKeys(keys: map<string, KeyRow>, vks: seq<ExportKey>, lookup: map<string, Id>, owners: map<string, Id>)
    requires keys != map[] && vks != []
    ensures ReplacedKeys(keys, vks, lookup, owners) == map[] <==> KeysEmptied(keys.Keys, vks, lookup.Keys)
  {
    var after := ReplacedKeys(keys, vks, lookup, owners);
    forall k | 0 <= k < |vks| ensures vks[k].keyHash in after <==> vks[k].keyHash in keys || !AllSkipped(vks, lookup, vks[k].keyHash) {
      UpsertedKeysAt(keys, vks, lookup, owners, vks[k].keyHash);
    }
    if after == map[] {
      forall k | 0 <= k < |vks| ensures vks[k].keyHash !in keys && SkipsKey(vks[k], lookup) {
        assert AllSkipped(vks, lookup, vks[k].keyHash);
      }
    }
    if KeysEmptied(keys.Keys, vks, lookup.Keys) {
      forall h | ListsKey(vks, h) ensures h !in UpsertedKeys(keys, vks, lookup, owners) {
        var k :| 0 <= k < |vks| && vks[k].keyHash == h;
        assert AllSkipped(vks, lookup, h);
        UpsertedKeysAt(keys, vks, lookup, owners, h);
      }
      assert after == map[];
    }
  }

  // --- The whole import ---

  function ListedNames(ps: seq<ExportProvider>): set<string> {
    set k | 0 <= k < |ps| :: ps[k].name
  }

  /** The providers an import leaves are known by the envelope's names. */
  lemma KnownNames(policy: Policy, before: map<Id, ProviderRow>, ps: seq<ExportProvider>, after: map<Id, ProviderRow>)
    requires ProvidersConverged(policy, before, ps, after)
    ensures NameToId(after).Keys == ListedNames(ps)
  {
    forall name ensures name in NameToId(after).Keys <==> name in ListedNames(ps) {
      ProviderNamesConverge(policy, before, ps, after, name);
      if HasName(after, name) {
        var id :| id in after && after[id].name == name;
        assert name in NameToId(after);
      }
    }
  }

  function SentUsers(env: Envelope): seq<ExportUser> {
    if env.users.Some? then env.users.value else []
  }

  ghost predicate ProvidersFit(policy: Policy, ps: seq<ExportProvider>) {
    forall k :: 0 <= k < |ps| ==> policy.providerOk(ps[k])
  }

  ghost predicate KeysFit(policy: Policy, vks: seq<ExportKey>) {
    forall k :: 0 <= k < |vks| ==> policy.keyOk(vks[k])
  }

  /** The error of the first check the import fails. */
  ghost predicate Refuses(policy: Policy, db: Member, env: Envelope, gen: Option<int>, error: ImportError) {
    var known := ListedNames(env.providers);
    if !Admits(db.sourceGen, gen) then error == Stale
    else if !NormDistinct(env.providers) then error == InvalidProvider
    else if env.providers == [] && db.providers != map[] then error == WouldWipeProviders
    else if env.virtualKeys.None? && db.keys != map[] then error == WouldWipeKeys
    else RefusesCore(policy, db, env, known, error)
  }

  ghost predicate RefusesCore(policy: Policy, db: Member, env: Envelope, known: set<string>, error: ImportError) {
    if !AccessFine(policy, db, env, known) then RefusesAccess(policy, env, known, error)
    else RefusesSettings(policy, db.settings, env.settings, error)
  }

  /** Providers, accounts and keys, in this order. */
  ghost predicate RefusesAccess(policy: Policy, env: Envelope, known: set<string>, error: ImportError) {
    if !ProvidersFit(policy, env.providers) then error == InvalidProvider
    else if !UsersFine(policy, SentUsers(env), known) then UsersRefused(policy, SentUsers(env), known, error)
    else error == if !KeysFit(policy, SentKeys(env)) then InvalidKey else WouldWipeKeys
  }

  ghost predicate AccessFine(policy: Policy, db: Member, env: Envelope, known: set<string>) {
    && ProvidersFit(policy, env.providers)
    && UsersFine(policy, SentUsers(env), known)
    && KeysFit(policy, SentKeys(env)) && !KeysEmptied(db.keys.Keys, SentKeys(env), known)
  }

  ghost predicate RefusesSettings(policy: Policy, held: map<string, string>, sent: Option<map<string, string>>, error: ImportError) {
    if SettingsDropped(policy, held, sent) then error == WouldWipeSettings
    else SettingUnfit(policy, Sent(sent)) && error == InvalidSetting
  }

  /** No check fails. */
  ghost predicate Accepts(policy: Policy, db: Member, env: Envelope, gen: Option<int>) {
    Admissible(db, env, gen) && CoreFine(policy, db, env)
  }

  ghost predicate CoreFine(policy: Policy, db: Member, env: Envelope) {
    && AccessFine(policy, db, env, ListedNames(env.providers))
    && !SettingsDropped(policy, db.settings, env.settings) && !SettingUnfit(policy, Sent(env.settings))
  }

  lemma {:induction false} FirstRefusal(policy: Policy, us: seq<ExportUser>, known: set<string>, n: nat)
    requires n <= |us|
    ensures (forall k :: 0 <= k < n ==> UserFine(policy, us, known, k)) || exists error :: UsersRefused(policy, us, known, error)
  {
    if n > 0 {
      FirstRefusal(policy, us, known, n - 1);
      if (forall k :: 0 <= k < n - 1 ==> UserFine(policy, us, known, k)) && !UserFine(policy, us, known, n - 1) {
        var error := if !policy.userOk(us[n - 1]) then InvalidUser
                     else if CapRefused(us[n - 1], known) then UnresolvableUserProviders(us[n - 1].username)
                     else EmailTaken;
        assert FirstRefusedAt(policy, us, known, n - 1, error) && UsersRefused(policy, us, known, error);
      }
    }
  }

  lemma TheRefusal(policy: Policy, db: Member, env: Envelope, gen: Option<int>) returns (error: ImportError)
    requires !Accepts(policy, db, env, gen)
    ensures Refuses(policy, db, env, gen, error)
  {
    var us, known := SentUsers(env), ListedNames(env.providers);
    FirstRefusal(policy, us, known, |us|);
    if !Admits(db.sourceGen, gen) {
      error := Stale;
    } else if !NormDistinct(env.providers) {
      error := InvalidProvider;
    } else if env.providers == [] && db.providers != map[] {
      error := WouldWipeProviders;
    } else if env.virtualKeys.None? && db.keys != map[] {
      error := WouldWipeKeys;
    } else if !ProvidersFit(policy, env.providers) {
      error := InvalidProvider;
    } else if !UsersFine(policy, us, known) {
      error :| UsersRefused(policy, us, known, error);
    } else if !KeysFit(policy, SentKeys(env)) {
      error := InvalidKey;
    } else if KeysEmptied(db.keys.Keys, SentKeys(env), known) {
      error := WouldWipeKeys;
    } else if SettingsDropped(policy, db.settings, env.settings) {
      error := WouldWipeSettings;
    } else {
      error := InvalidSetting;
    }
  }

  lemma UsersRefusedOnce(policy: Policy, us: seq<ExportUser>, known: set<string>, a: ImportError, b: ImportError)
    requires UsersRefused(policy, us, known, a) && UsersRefused(policy, us, known, b)
    ensures a == b && !UsersFine(policy, us, known)
  {
    var j :| FirstRefusedAt(policy, us, known, j, a);
    var k :| FirstRefusedAt(policy, us, known, k, b);
    assert j == k;
  }

  lemma CoreRefusedOnce(policy: Policy, db: Member, env: Envelope, known: set<string>, a: ImportError, b: ImportError)
    requires RefusesCore(policy, db, env, known, a) && RefusesCore(policy, db, env, known, b)
    ensures a == b
  {
    if ProvidersFit(policy, env.providers) && !UsersFine(policy, SentUsers(env), known) {
      UsersRefusedOnce(policy, SentUsers(env), known, a, b);
    }
  }

  lemma RefusedOnce(policy: Policy, db: Member, env: Envelope, gen: Option<int>, a: ImportError, b: ImportError)
    requires Refuses(policy, db, env, gen, a) && Refuses(policy, db, env, gen, b)
    ensures a == b && !Accepts(policy, db, env, gen)
  {
    var known := ListedNames(env.providers);
    if RefusesCore(policy, db, env, known, a) && RefusesCore(policy, db, env, known, b) {
      CoreRefusedOnce(policy, db, env, known, a, b);
    }
  }

  /** Every import is accepted, or refused with one error and no other. */
  lemma OneVerdict(policy: Policy, db: Member, env: Envelope, gen: Option<int>)
    ensures Accepts(policy, db, env, gen) <==> forall error :: !Refuses(policy, db, env, gen, error)
    ensures forall a, b :: Refuses(policy, db, env, gen, a) && Refuses(policy, db, env, gen, b) ==> a == b
  {
    forall a, b | Refuses(policy, db, env, gen, a) && Refuses(policy, db, env, gen, b)
      ensures a == b && !Accepts(policy, db, env, gen)
    {
      RefusedOnce(policy, db, env, gen, a, b);
    }
    if !Accepts(policy, db, env, gen) {
      var error := TheRefusal(policy, db, env, gen);
    }
  }
}
