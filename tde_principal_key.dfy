/**
 * The principal-key life cycle (src/catalog/tde_principal_key.c): a shared
 * cache of one principal key per database, the durable principal-key info
 * of each (database, tablespace) scope, the provider registry of each scope
 * and the key stores behind the providers.
 *
 * The durable info store stands for pg_tde_get_principal_key and
 * pg_tde_save_principal_key (pg_tde_tdemap.c is not part of this model);
 * locks are left out and each operation is atomic. Values the environment
 * supplies (the clock, the generated key bytes, whether the provider's
 * store or the map-file rewrite succeeds, a key another backend caches
 * concurrently) are parameters.
 */
module TdePrincipalKey {
  import opened Wrappers
  import opened CString
  import opened KeyringApi
  import opened TdeKeyring

  type Oid = int

  const InvalidOid: Oid := 0
  /** PostgreSQL's pg_global tablespace. */
  const GLOBALTABLESPACE_OID: Oid := 1664

  /**
   * The first version of a principal key and the probing bound; the header
   * that defines them is not part of this model (0 is the first version a
   * new key gets). No proof depends on their values.
   */
  const DEFAULT_PRINCIPAL_KEY_VERSION: nat := 0
  const MAX_PRINCIPAL_KEY_VERSION_NUM: nat := 100000

  datatype Timeval = Timeval(tvSec: int, tvUsec: int)

  /** TDEPrincipalKeyId: the base name, the version, and the provider-side name "name_version". */
  datatype PrincipalKeyId = PrincipalKeyId(name: string, version: nat, versionedName: string)

  /** TDEPrincipalKeyInfo */
  datatype PrincipalKeyInfo = PrincipalKeyInfo(
    databaseId: Oid, tablespaceId: Oid, keyringId: int, creationTime: Timeval, keyId: PrincipalKeyId)

  /** TDEPrincipalKey; keyLength is the length of keyData. */
  datatype PrincipalKey = PrincipalKey(keyInfo: PrincipalKeyInfo, keyData: KeyData)

  datatype Scope = Scope(databaseId: Oid, tablespaceId: Oid)

  function ScopeOf(info: PrincipalKeyInfo): Scope {
    Scope(info.databaseId, info.tablespaceId)
  }

  /** snprintf(versioned_name, ..., "%s_%d", name, version) */
  function VersionedName(name: string, version: nat): string {
    name + "_" + NatToString(version)
  }

  /** Two versions of one name never share a versioned name. */
  lemma VersionedNameInjective(name: string, v1: nat, v2: nat)
    requires VersionedName(name, v1) == VersionedName(name, v2)
    ensures v1 == v2
  {
    var k := |name| + 1;
    assert VersionedName(name, v1)[k..] == NatToString(v1);
    assert VersionedName(name, v2)[k..] == NatToString(v2);
    NatToStringInjective(v1, v2);
  }

  /** The info with its version set and its versioned name printed from it. */
  function WithVersion(info: PrincipalKeyInfo, version: nat): PrincipalKeyInfo {
    info.(keyId := PrincipalKeyId(info.keyId.name, version, VersionedName(info.keyId.name, version)))
  }

  datatype PkError =
    | ProviderLookupFailed(registryError: RegistryError)
    | KeyringFatal(code: KeyringReturnCode)
    | TooManyVersions
    | DuplicatePrincipalKey
    | KeyringMissing
    | KeyGenerationFailed

  /** A value returned, or an ERROR / FATAL report that ends the operation. */
  datatype Outcome<T> = Done(value: T) | Raised(error: PkError)

  /** The state the operations of this file read and write. */
  datatype KeyState = KeyState(
    cache: map<Oid, PrincipalKey>,
    store: map<Scope, PrincipalKeyInfo>,
    registries: map<Scope, ProviderFile>,
    keyStores: map<KeyringConfig, KeyStore>)

  /** Cache entries sit under their own database, store entries under their own scope. */
  predicate StateValid(st: KeyState) {
    (forall d :: d in st.cache ==> st.cache[d].keyInfo.databaseId == d)
    && (forall s :: s in st.store ==> ScopeOf(st.store[s]) == s)
  }

  /** The provider registry file of a scope; None when the scope has none. */
  function RegistryOf(registries: map<Scope, ProviderFile>, scope: Scope): Option<ProviderFile> {
    if scope in registries then Some(registries[scope]) else None
  }

  /** The key store a keyring configuration reaches; a store never written to holds no keys. */
  function StoreOf(keyStores: map<KeyringConfig, KeyStore>, config: KeyringConfig): KeyStore {
    if config in keyStores then keyStores[config] else KeyStore(map[], None, KeyringCodeSuccess, KeyringCodeSuccess)
  }

  // ------------------------------------------------------------------
  // load_latest_versioned_key_name

  datatype LoadOutcome =
    | Loaded(key: Option<KeyData>, version: nat)
    | LoadFatal(code: KeyringReturnCode)
    | LoadTooManyVersions

  /** The provider codes the probe accepts: success, and the vault's "not found". */
  predicate CodeOk(c: KeyringReturnCode) {
    c == KeyringCodeSuccess || c == KeyringCodeResourceNotAvailable
  }

  /** The probe loop from version v on, for a search that started at base. */
  function ProbeFrom(ks: KeyStore, name: string, base: nat, v: nat, ensureNew: bool): (r: LoadOutcome)
    ensures base <= v && r.Loaded? ==> base <= r.version
    decreases if v <= MAX_PRINCIPAL_KEY_VERSION_NUM then MAX_PRINCIPAL_KEY_VERSION_NUM + 1 - v else 0
  {
    var g := KeyringGetKey(ks, VersionedName(name, v));
    if !CodeOk(g.1) then LoadFatal(g.1)
    else if g.0.None? then
      if !ensureNew && base < v then Loaded(KeyringGetKey(ks, VersionedName(name, v - 1)).0, v - 1)
      else Loaded(None, v)
    else if v + 1 > MAX_PRINCIPAL_KEY_VERSION_NUM then LoadTooManyVersions
    else ProbeFrom(ks, name, base, v + 1, ensureNew)
  }

  function LoadLatest(ks: KeyStore, info: PrincipalKeyInfo, ensureNew: bool): LoadOutcome {
    ProbeFrom(ks, info.keyId.name, info.keyId.version, info.keyId.version, ensureNew)
  }

  /** Every version in [lo, hi) of the name is held by the provider. */
  predicate PresentFrom(ks: KeyStore, name: string, lo: nat, hi: nat) {
    forall u: nat :: lo <= u < hi ==> HasKey(ks, VersionedName(name, u))
  }

  /**
   * load_latest_versioned_key_name: returns the outcome and the caller's
   * info as the loop leaves it (version and versioned name of the last probe).
   */
  method LoadLatestVersionedKeyName(info: PrincipalKeyInfo, ks: KeyStore, ensureNew: bool)
    returns (r: LoadOutcome, info': PrincipalKeyInfo)
    ensures r == LoadLatest(ks, info, ensureNew)
    ensures r.Loaded? ==> info' == WithVersion(info, r.version)
  {
    var base := info.keyId.version;
    info' := WithVersion(info, base);
    while true
      invariant info' == WithVersion(info, info'.keyId.version) && base <= info'.keyId.version
      invariant ProbeFrom(ks, info.keyId.name, base, info'.keyId.version, ensureNew) == LoadLatest(ks, info, ensureNew)
      decreases if info'.keyId.version <= MAX_PRINCIPAL_KEY_VERSION_NUM then MAX_PRINCIPAL_KEY_VERSION_NUM + 1 - info'.keyId.version else 0
    {
      var g := KeyringGetKey(ks, info'.keyId.versionedName);
      if !CodeOk(g.1) {
        return LoadFatal(g.1), info';
      }
      if g.0.None? {
        if !ensureNew && base < info'.keyId.version {
          info' := WithVersion(info, info'.keyId.version - 1);
          var g2 := KeyringGetKey(ks, info'.keyId.versionedName);
          return Loaded(g2.0, info'.keyId.version), info';
        }
        return Loaded(None, info'.keyId.version), info';
      }
      var next := info'.keyId.version + 1;
      info' := WithVersion(info, next);
      if next > MAX_PRINCIPAL_KEY_VERSION_NUM {
        return LoadTooManyVersions, info';
      }
    }
  }

  /** From any v in [base, w], the probe stops at w, the first version the provider does not hold. */
  lemma {:induction false} ProbeStopsAtFirstGap(ks: KeyStore, name: string, base: nat, v: nat, w: nat, ensureNew: bool)
    requires base <= v <= w && (v == w || w <= MAX_PRINCIPAL_KEY_VERSION_NUM)
    requires PresentFrom(ks, name, base, w) && !HasKey(ks, VersionedName(name, w))
    requires CodeOk(KeyringGetKey(ks, VersionedName(name, w)).1) && (v < w ==> CodeOk(ks.hitCode))
    ensures ProbeFrom(ks, name, base, v, ensureNew)
      == if !ensureNew && base < w then Loaded(Some(ks.keys[VersionedName(name, w - 1)]), w - 1) else Loaded(None, w)
    decreases w - v
  {
    if v < w {
      assert HasKey(ks, VersionedName(name, v));
      ProbeStopsAtFirstGap(ks, name, base, v + 1, w, ensureNew);
    } else if !ensureNew && base < w {
      assert HasKey(ks, VersionedName(name, w - 1));
    }
  }

  /**
   * With versions base..w-1 present and w absent: with ensure_new_key the
   * result is NULL at the first free version w; without it, the key at the
   * highest consecutive version w-1, or NULL at base when base is absent.
   */
  lemma LoadLatestFirstGap(ks: KeyStore, info: PrincipalKeyInfo, w: nat)
    requires info.keyId.version <= w && (info.keyId.version == w || w <= MAX_PRINCIPAL_KEY_VERSION_NUM)
    requires PresentFrom(ks, info.keyId.name, info.keyId.version, w) && !HasKey(ks, VersionedName(info.keyId.name, w))
    requires CodeOk(KeyringGetKey(ks, VersionedName(info.keyId.name, w)).1)
    requires info.keyId.version < w ==> CodeOk(ks.hitCode)
    ensures LoadLatest(ks, info, true) == Loaded(None, w)
    ensures info.keyId.version < w ==>
      LoadLatest(ks, info, false) == Loaded(Some(ks.keys[VersionedName(info.keyId.name, w - 1)]), w - 1)
    ensures info.keyId.version == w ==> LoadLatest(ks, info, false) == Loaded(None, w)
  {
    var base := info.keyId.version;
    ProbeStopsAtFirstGap(ks, info.keyId.name, base, base, w, true);
    ProbeStopsAtFirstGap(ks, info.keyId.name, base, base, w, false);
  }

  /** What the probe returns once it reaches the absent version g. */
  function GapOutcome(ks: KeyStore, name: string, base: nat, g: nat, ensureNew: bool): LoadOutcome {
    if !ensureNew && base < g then Loaded(KeyringGetKey(ks, VersionedName(name, g - 1)).0, g - 1) else Loaded(None, g)
  }

  /**
   * Conversely, a probe that ends without an error has found a gap g: the
   * versions from base to g-1 are all held and g is not, and the result is
   * the one LoadLatestFirstGap describes for that g.
   */
  lemma {:induction false} ProbeFindsGap(ks: KeyStore, name: string, base: nat, v: nat, ensureNew: bool) returns (g: nat)
    requires base <= v && PresentFrom(ks, name, base, v)
    requires ProbeFrom(ks, name, base, v, ensureNew).Loaded?
    ensures v <= g && PresentFrom(ks, name, base, g) && !HasKey(ks, VersionedName(name, g))
    ensures ProbeFrom(ks, name, base, v, ensureNew) == GapOutcome(ks, name, base, g, ensureNew)
    decreases if v <= MAX_PRINCIPAL_KEY_VERSION_NUM then MAX_PRINCIPAL_KEY_VERSION_NUM + 1 - v else 0
  {
    var g0 := KeyringGetKey(ks, VersionedName(name, v));
    if g0.0.None? {
      g := v;
    } else {
      assert PresentFrom(ks, name, base, v + 1);
      g := ProbeFindsGap(ks, name, base, v + 1, ensureNew);
    }
  }

  /** With ensure_new_key, a NULL result names the first free version, and every version below it from the base is held. */
  lemma LoadLatestEnsureNewFindsFirstFree(ks: KeyStore, info: PrincipalKeyInfo)
    requires LoadLatest(ks, info, true).Loaded?
    ensures var r := LoadLatest(ks, info, true);
      r.key.None? && info.keyId.version <= r.version
      && PresentFrom(ks, info.keyId.name, info.keyId.version, r.version)
      && !HasKey(ks, VersionedName(info.keyId.name, r.version))
  {
    var g := ProbeFindsGap(ks, info.keyId.name, info.keyId.version, info.keyId.version, true);
  }

  /** When every version from v up to the bound is present, the probe gives up with an ERROR. */
  lemma {:induction false} ProbeExhausted(ks: KeyStore, name: string, base: nat, v: nat, ensureNew: bool)
    requires PresentFrom(ks, name, v, (if v <= MAX_PRINCIPAL_KEY_VERSION_NUM then MAX_PRINCIPAL_KEY_VERSION_NUM else v) + 1)
    requires CodeOk(ks.hitCode)
    ensures ProbeFrom(ks, name, base, v, ensureNew) == LoadTooManyVersions
    decreases if v <= MAX_PRINCIPAL_KEY_VERSION_NUM then MAX_PRINCIPAL_KEY_VERSION_NUM + 1 - v else 0
  {
    assert HasKey(ks, VersionedName(name, v));
    if v + 1 <= MAX_PRINCIPAL_KEY_VERSION_NUM {
      ProbeExhausted(ks, name, base, v + 1, ensureNew);
    }
  }

  /**
   * A hit does not clear an unacceptable code: when the code a hit leaves is
   * neither SUCCESS nor RESOURCE_NOT_AVAILABLE (the file provider leaves the
   * caller's uninitialised variable as it was), finding the base version is
   * already FATAL.
   */
  lemma HitWithUnacceptableCodeIsFatal(ks: KeyStore, info: PrincipalKeyInfo, ensureNew: bool)
    requires HasKey(ks, VersionedName(info.keyId.name, info.keyId.version)) && !CodeOk(ks.hitCode)
    ensures LoadLatest(ks, info, ensureNew) == LoadFatal(ks.hitCode)
  {
  }

  /** A provider that fails every call with a code other than SUCCESS or RESOURCE_NOT_AVAILABLE is fatal at once. */
  lemma LoadLatestFailingProvider(ks: KeyStore, info: PrincipalKeyInfo, ensureNew: bool)
    requires ks.failure.Some? && !CodeOk(ks.failure.value)
    ensures LoadLatest(ks, info, ensureNew) == LoadFatal(ks.failure.value)
  {
  }

  // ------------------------------------------------------------------
  // The shared cache

  /** push_principal_key_to_cache: insert under the key's database unless an entry is there. */
  function Push(cache: map<Oid, PrincipalKey>, pk: PrincipalKey): map<Oid, PrincipalKey> {
    if pk.keyInfo.databaseId in cache then cache else cache[pk.keyInfo.databaseId := pk]
  }

  /** clear_principal_key_cache */
  function Clear(cache: map<Oid, PrincipalKey>, databaseId: Oid): map<Oid, PrincipalKey> {
    cache - {databaseId}
  }

  /** A push never overwrites; a clear drops exactly one entry; clear then push installs the key. */
  lemma PushAndClear(cache: map<Oid, PrincipalKey>, pk: PrincipalKey, d: Oid)
    ensures pk.keyInfo.databaseId in cache ==> Push(cache, pk) == cache
    ensures pk.keyInfo.databaseId !in cache ==> Push(cache, pk) == cache[pk.keyInfo.databaseId := pk]
    ensures d !in Clear(cache, d)
    ensures forall e :: e != d && e in cache ==> e in Clear(cache, d) && Clear(cache, d)[e] == cache[e]
    ensures Push(Clear(cache, pk.keyInfo.databaseId), pk)[pk.keyInfo.databaseId] == pk
  {
  }

  lemma PushKeepsValid(st: KeyState, pk: PrincipalKey)
    requires StateValid(st)
    ensures StateValid(st.(cache := Push(st.cache, pk)))
  {
  }

  // ------------------------------------------------------------------
  // GetPrincipalKey

  /** The slow path after the cache re-check: the stored info, its provider, then the key. */
  function LoadedKeyFor(st: KeyState, scope: Scope): (r: Outcome<Option<PrincipalKey>>)
    ensures r.Done? && r.value.Some? ==> scope in st.store && r.value.value.keyInfo == st.store[scope]
  {
    if scope !in st.store then Done(None)
    else
      var info := st.store[scope];
      match ProviderById(RegistryOf(st.registries, scope), info.keyringId)
      case Err(e) => Raised(ProviderLookupFailed(e))
      case Ok(None) => Done(None)
      case Ok(Some(keyring)) =>
        var g := KeyringGetKey(StoreOf(st.keyStores, keyring.config), info.keyId.versionedName);
        if g.0.None? then Done(None) else Done(Some(PrincipalKey(info, g.0.value)))
  }

  /**
   * GetPrincipalKey with the recursion counter `recursion` on entry; `racer`
   * is a key another backend caches between the shared fast path and the
   * exclusive slow path.
   */
  function GetPrincipalKeySpec(st: KeyState, recursion: int, db: Oid, spc: Oid, racer: Option<PrincipalKey>)
    : (Outcome<Option<PrincipalKey>>, KeyState)
  {
    if recursion > 0 then (Done(None), st)
    else if spc != GLOBALTABLESPACE_OID && db in st.cache then (Done(Some(st.cache[db])), st)
    else
      var st1 := if racer.Some? then st.(cache := Push(st.cache, racer.value)) else st;
      if spc != GLOBALTABLESPACE_OID && db in st1.cache then (Done(Some(st1.cache[db])), st1)
      else
        match LoadedKeyFor(st1, Scope(db, spc))
        case Raised(e) => (Raised(e), st1)
        case Done(None) => (Done(None), st1)
        case Done(Some(pk)) =>
          (Done(Some(pk)), if spc != GLOBALTABLESPACE_OID then st1.(cache := Push(st1.cache, pk)) else st1)
  }

  /** Re-entered while the counter is above 0, GetPrincipalKey returns NULL and touches nothing. */
  lemma GetReentrantReturnsNull(st: KeyState, recursion: int, db: Oid, spc: Oid, racer: Option<PrincipalKey>)
    requires recursion > 0
    ensures GetPrincipalKeySpec(st, recursion, db, spc, racer) == (Done(None), st)
  {
  }

  /** A cache hit outside the global tablespace is returned without consulting the store or a provider. */
  lemma GetCacheHit(st: KeyState, db: Oid, spc: Oid, racer: Option<PrincipalKey>, other: KeyState)
    requires spc != GLOBALTABLESPACE_OID && db in st.cache
    requires other.cache == st.cache
    ensures GetPrincipalKeySpec(st, 0, db, spc, racer) == (Done(Some(st.cache[db])), st)
    ensures GetPrincipalKeySpec(other, 0, db, spc, racer).0 == GetPrincipalKeySpec(st, 0, db, spc, racer).0
  {
  }

  /** For the global tablespace the cache is neither read nor written: the answer is the same whatever it holds. */
  lemma GetGlobalBypassesCache(st: KeyState, db: Oid, otherCache: map<Oid, PrincipalKey>)
    ensures GetPrincipalKeySpec(st, 0, db, GLOBALTABLESPACE_OID, None).1 == st
    ensures GetPrincipalKeySpec(st.(cache := otherCache), 0, db, GLOBALTABLESPACE_OID, None).0
      == GetPrincipalKeySpec(st, 0, db, GLOBALTABLESPACE_OID, None).0
  {
    assert LoadedKeyFor(st.(cache := otherCache), Scope(db, GLOBALTABLESPACE_OID)) == LoadedKeyFor(st, Scope(db, GLOBALTABLESPACE_OID));
  }

  /** A miss that finds the key returns the stored info with the provider's bytes and caches exactly that key. */
  lemma GetMissLoadsAndCaches(st: KeyState, db: Oid, spc: Oid)
    requires StateValid(st)
    requires spc != GLOBALTABLESPACE_OID && db !in st.cache
    requires GetPrincipalKeySpec(st, 0, db, spc, None).0.Done? && GetPrincipalKeySpec(st, 0, db, spc, None).0.value.Some?
    ensures var pk := GetPrincipalKeySpec(st, 0, db, spc, None).0.value.value;
      Scope(db, spc) in st.store && pk.keyInfo == st.store[Scope(db, spc)]
      && GetPrincipalKeySpec(st, 0, db, spc, None).1 == st.(cache := st.cache[db := pk])
    ensures var pk := GetPrincipalKeySpec(st, 0, db, spc, None).0.value.value;
      var info := st.store[Scope(db, spc)];
      var found := ProviderById(RegistryOf(st.registries, Scope(db, spc)), info.keyringId);
      found.Ok? && found.value.Some?
      && HasKey(StoreOf(st.keyStores, found.value.value.config), info.keyId.versionedName)
      && pk.keyData == StoreOf(st.keyStores, found.value.value.config).keys[info.keyId.versionedName]
  {
    var pk := GetPrincipalKeySpec(st, 0, db, spc, None).0.value.value;
    assert LoadedKeyFor(st, Scope(db, spc)) == Done(Some(pk));
    assert ScopeOf(st.store[Scope(db, spc)]) == Scope(db, spc);
  }

  /** Without stored info for the scope, a cache miss returns NULL. */
  lemma GetNullWithoutInfo(st: KeyState, db: Oid, spc: Oid)
    requires Scope(db, spc) !in st.store
    requires spc == GLOBALTABLESPACE_OID || db !in st.cache
    ensures GetPrincipalKeySpec(st, 0, db, spc, None) == (Done(None), st)
  {
  }

  /**
   * Stored info whose provider is no longer registered, or whose key the
   * provider does not hold, gives NULL on a miss, and the cache is not written.
   */
  lemma GetNullWhenProviderOrKeyMissing(st: KeyState, db: Oid, spc: Oid)
    requires spc == GLOBALTABLESPACE_OID || db !in st.cache
    requires Scope(db, spc) in st.store
    requires var info := st.store[Scope(db, spc)];
      var found := ProviderById(RegistryOf(st.registries, Scope(db, spc)), info.keyringId);
      found.Ok? && (found.value.None? || !HasKey(StoreOf(st.keyStores, found.value.value.config), info.keyId.versionedName))
    ensures GetPrincipalKeySpec(st, 0, db, spc, None) == (Done(None), st)
  {
  }

  lemma GetKeepsValid(st: KeyState, recursion: int, db: Oid, spc: Oid, racer: Option<PrincipalKey>)
    requires StateValid(st)
    ensures StateValid(GetPrincipalKeySpec(st, recursion, db, spc, racer).1)
  {
  }

  // ------------------------------------------------------------------
  // Setting and rotating

  /**
   * The part set_principal_key_with_keyring and RotatePrincipalKey share:
   * probe the provider, and generate and store a key under the probed
   * versioned name when the probe returns NULL.
   */
  function LoadOrGenerate(st: KeyState, info: PrincipalKeyInfo, keyring: GenericKeyring, ensureNew: bool, newKey: KeyData, storeOk: bool)
    : (r: Outcome<(PrincipalKey, KeyState)>)
    ensures r.Done? ==> r.value.0.keyInfo == WithVersion(info, r.value.0.keyInfo.keyId.version)
    ensures r.Done? ==> r.value.0.keyInfo.keyId.version >= info.keyId.version
    ensures r.Done? ==> r.value.1 == st.(keyStores := r.value.1.keyStores)
  {
    var ks := StoreOf(st.keyStores, keyring.config);
    match LoadLatest(ks, info, ensureNew)
    case LoadFatal(c) => Raised(KeyringFatal(c))
    case LoadTooManyVersions => Raised(TooManyVersions)
    case Loaded(key, v) =>
      var info' := WithVersion(info, v);
      if key.Some? then Done((PrincipalKey(info', key.value), st))
      else
        var g := KeyringGenerateNewKeyAndStore(ks, info'.keyId.versionedName, newKey, storeOk);
        if g.0.None? then Raised(KeyGenerationFailed)
        else Done((PrincipalKey(info', g.0.value), st.(keyStores := st.keyStores[keyring.config := g.1])))
  }

  /** A key the probe returns is one the provider holds under the versioned name of the version it reports. */
  lemma LoadLatestKeyIsHeld(ks: KeyStore, info: PrincipalKeyInfo, ensureNew: bool)
    requires LoadLatest(ks, info, ensureNew).Loaded? && LoadLatest(ks, info, ensureNew).key.Some?
    ensures var r := LoadLatest(ks, info, ensureNew);
      HasKey(ks, VersionedName(info.keyId.name, r.version)) && ks.keys[VersionedName(info.keyId.name, r.version)] == r.key.value
  {
    var g := ProbeFindsGap(ks, info.keyId.name, info.keyId.version, info.keyId.version, ensureNew);
  }

  /**
   * LoadOrGenerate takes the version the probe reports. A key the probe
   * finds is used as it is and nothing changes; otherwise the generated
   * bytes are stored under the probed versioned name, which was free, and
   * only that provider's key store changes.
   */
  lemma LoadOrGenerateUsesProbe(st: KeyState, info: PrincipalKeyInfo, keyring: GenericKeyring, ensureNew: bool,
                                newKey: KeyData, storeOk: bool)
    requires LoadOrGenerate(st, info, keyring, ensureNew, newKey, storeOk).Done?
    ensures var ks := StoreOf(st.keyStores, keyring.config);
      var l := LoadLatest(ks, info, ensureNew);
      var made := LoadOrGenerate(st, info, keyring, ensureNew, newKey, storeOk).value;
      var name := made.0.keyInfo.keyId.versionedName;
      l.Loaded? && made.0.keyInfo == WithVersion(info, l.version)
      && (l.key.Some? ==> made.0.keyData == l.key.value && made.1 == st)
      && (l.key.None? ==>
            made.0.keyData == newKey && name !in ks.keys
            && made.1 == st.(keyStores := st.keyStores[keyring.config := ks.(keys := ks.keys[name := newKey])]))
  {
  }

  /**
   * After LoadOrGenerate the provider holds the key's bytes under the key's
   * own versioned name, and every key any provider held before is still held
   * with the same bytes.
   */
  lemma LoadOrGenerateHoldsKey(st: KeyState, info: PrincipalKeyInfo, keyring: GenericKeyring, ensureNew: bool,
                               newKey: KeyData, storeOk: bool)
    requires LoadOrGenerate(st, info, keyring, ensureNew, newKey, storeOk).Done?
    ensures var made := LoadOrGenerate(st, info, keyring, ensureNew, newKey, storeOk).value;
      var ks' := StoreOf(made.1.keyStores, keyring.config);
      HasKey(ks', made.0.keyInfo.keyId.versionedName) && ks'.keys[made.0.keyInfo.keyId.versionedName] == made.0.keyData
    ensures var made := LoadOrGenerate(st, info, keyring, ensureNew, newKey, storeOk).value;
      forall c: KeyringConfig, n: string :: n in StoreOf(st.keyStores, c).keys ==>
        n in StoreOf(made.1.keyStores, c).keys && StoreOf(made.1.keyStores, c).keys[n] == StoreOf(st.keyStores, c).keys[n]
  {
    var ks := StoreOf(st.keyStores, keyring.config);
    var l := LoadLatest(ks, info, ensureNew);
    var made := LoadOrGenerate(st, info, keyring, ensureNew, newKey, storeOk).value;
    LoadOrGenerateUsesProbe(st, info, keyring, ensureNew, newKey, storeOk);
    if l.key.Some? {
      LoadLatestKeyIsHeld(ks, info, ensureNew);
    } else {
      var name := made.0.keyInfo.keyId.versionedName;
      forall c: KeyringConfig, n: string | n in StoreOf(st.keyStores, c).keys
        ensures n in StoreOf(made.1.keyStores, c).keys && StoreOf(made.1.keyStores, c).keys[n] == StoreOf(st.keyStores, c).keys[n]
      {
        if c == keyring.config {
          GenerateKeepsExistingKeys(ks, name, newKey, storeOk, n);
        }
      }
    }
  }

  /** set_principal_key_with_keyring; `now` is what gettimeofday returns. */
  function SetPrincipalKeyWithKeyringSpec(st: KeyState, keyName: string, keyring: GenericKeyring, db: Oid, spc: Oid,
                                          ensureNew: bool, now: Timeval, newKey: KeyData, storeOk: bool)
    : (Outcome<PrincipalKey>, KeyState)
  {
    if db in st.cache || Scope(db, spc) in st.store then (Raised(DuplicatePrincipalKey), st)
    else
      var info := PrincipalKeyInfo(db, spc, keyring.keyId, now, PrincipalKeyId(keyName, DEFAULT_PRINCIPAL_KEY_VERSION, ""));
      match LoadOrGenerate(st, info, keyring, ensureNew, newKey, storeOk)
      case Raised(e) => (Raised(e), st)
      case Done(made) =>
        var pk := made.0;
        (Done(pk), made.1.(store := made.1.store[Scope(db, spc) := pk.keyInfo], cache := Push(made.1.cache, pk)))
  }

  /** SetPrincipalKey: the keyring is looked up by name in the scope's registry. */
  function SetPrincipalKeySpec(st: KeyState, keyName: string, providerName: string, db: Oid, spc: Oid,
                               ensureNew: bool, now: Timeval, newKey: KeyData, storeOk: bool)
    : (Outcome<bool>, KeyState)
  {
    match ProviderByName(RegistryOf(st.registries, Scope(db, spc)), providerName)
    case Err(e) => (Raised(ProviderLookupFailed(e)), st)
    case Ok(keyring) =>
      var s := SetPrincipalKeyWithKeyringSpec(st, keyName, keyring, db, spc, ensureNew, now, newKey, storeOk);
      (if s.0.Done? then Done(true) else Raised(s.0.error), s.1)
  }

  /** A database that already has a key in the cache or the store is refused, and nothing changes. */
  lemma SetRejectsDuplicate(st: KeyState, keyName: string, keyring: GenericKeyring, db: Oid, spc: Oid,
                            ensureNew: bool, now: Timeval, newKey: KeyData, storeOk: bool)
    requires db in st.cache || Scope(db, spc) in st.store
    ensures SetPrincipalKeyWithKeyringSpec(st, keyName, keyring, db, spc, ensureNew, now, newKey, storeOk)
      == (Raised(DuplicatePrincipalKey), st)
  {
  }

  /**
   * A new key belongs to the scope and the keyring it was set with, carries
   * the given name at a version no lower than the default, and is both
   * saved for the scope and cached for the database.
   */
  lemma SetCreatesSavesAndCaches(st: KeyState, keyName: string, keyring: GenericKeyring, db: Oid, spc: Oid,
                                 ensureNew: bool, now: Timeval, newKey: KeyData, storeOk: bool)
    requires SetPrincipalKeyWithKeyringSpec(st, keyName, keyring, db, spc, ensureNew, now, newKey, storeOk).0.Done?
    ensures var s := SetPrincipalKeyWithKeyringSpec(st, keyName, keyring, db, spc, ensureNew, now, newKey, storeOk);
      var pk := s.0.value;
      pk.keyInfo.databaseId == db && pk.keyInfo.tablespaceId == spc && pk.keyInfo.keyringId == keyring.keyId
      && pk.keyInfo.creationTime == now
      && pk.keyInfo.keyId.name == keyName && pk.keyInfo.keyId.version >= DEFAULT_PRINCIPAL_KEY_VERSION
      && pk.keyInfo.keyId.versionedName == VersionedName(keyName, pk.keyInfo.keyId.version)
      && s.1.store == st.store[Scope(db, spc) := pk.keyInfo]
      && s.1.cache == st.cache[db := pk]
  {
    var info := PrincipalKeyInfo(db, spc, keyring.keyId, now, PrincipalKeyId(keyName, DEFAULT_PRINCIPAL_KEY_VERSION, ""));
    var made := LoadOrGenerate(st, info, keyring, ensureNew, newKey, storeOk);
    assert made.Done?;
    assert made.value.1.cache == st.cache && made.value.1.store == st.store;
  }

  /**
   * When the keyring holds no "name_<default>" key, the new key gets the
   * default version and the generated bytes, and the keyring now holds
   * those bytes under that name.
   */
  lemma SetFreshNameUsesDefaultVersion(st: KeyState, keyName: string, keyring: GenericKeyring, db: Oid, spc: Oid,
                                       ensureNew: bool, now: Timeval, newKey: KeyData, storeOk: bool)
    requires var ks := StoreOf(st.keyStores, keyring.config);
      !HasKey(ks, VersionedName(keyName, DEFAULT_PRINCIPAL_KEY_VERSION))
      && CodeOk(KeyringGetKey(ks, VersionedName(keyName, DEFAULT_PRINCIPAL_KEY_VERSION)).1)
    requires SetPrincipalKeyWithKeyringSpec(st, keyName, keyring, db, spc, ensureNew, now, newKey, storeOk).0.Done?
    ensures var s := SetPrincipalKeyWithKeyringSpec(st, keyName, keyring, db, spc, ensureNew, now, newKey, storeOk);
      var name := VersionedName(keyName, DEFAULT_PRINCIPAL_KEY_VERSION);
      s.0.value.keyInfo.keyId.version == DEFAULT_PRINCIPAL_KEY_VERSION && s.0.value.keyData == newKey
      && HasKey(StoreOf(s.1.keyStores, keyring.config), name)
      && StoreOf(s.1.keyStores, keyring.config).keys[name] == newKey
  {
    var info := PrincipalKeyInfo(db, spc, keyring.keyId, now, PrincipalKeyId(keyName, DEFAULT_PRINCIPAL_KEY_VERSION, ""));
    var ks := StoreOf(st.keyStores, keyring.config);
    LoadLatestFirstGap(ks, info, DEFAULT_PRINCIPAL_KEY_VERSION);
  }

  lemma SetKeepsValid(st: KeyState, keyName: string, keyring: GenericKeyring, db: Oid, spc: Oid,
                      ensureNew: bool, now: Timeval, newKey: KeyData, storeOk: bool)
    requires StateValid(st)
    ensures StateValid(SetPrincipalKeyWithKeyringSpec(st, keyName, keyring, db, spc, ensureNew, now, newKey, storeOk).1)
  {
    var info := PrincipalKeyInfo(db, spc, keyring.keyId, now, PrincipalKeyId(keyName, DEFAULT_PRINCIPAL_KEY_VERSION, ""));
    var made := LoadOrGenerate(st, info, keyring, ensureNew, newKey, storeOk);
    if made.Done? && !(db in st.cache || Scope(db, spc) in st.store) {
      assert made.value.1.cache == st.cache && made.value.1.store == st.store;
    }
  }

  /**
   * The info of the rotated key before probing: without a new name the
   * version goes up by one; with one, the name is replaced and the version
   * reset, and the provider changes only when a provider name is also given.
   */
  function RotationTarget(st: KeyState, info: PrincipalKeyInfo, newName: Option<string>, newProviderName: Option<string>)
    : Outcome<PrincipalKeyInfo>
  {
    if newName.None? then Done(info.(keyId := info.keyId.(version := info.keyId.version + 1)))
    else
      var renamed := info.(keyId := info.keyId.(name := newName.value, version := DEFAULT_PRINCIPAL_KEY_VERSION));
      if newProviderName.None? then Done(renamed)
      else
        match ProviderByName(RegistryOf(st.registries, ScopeOf(info)), newProviderName.value)
        case Err(e) => Raised(ProviderLookupFailed(e))
        case Ok(keyring) => Done(renamed.(keyringId := keyring.keyId))
  }

  /** The new key RotatePrincipalKey builds, and the key stores after any generation. */
  function RotatedKey(st: KeyState, current: PrincipalKey, newName: Option<string>, newProviderName: Option<string>,
                      ensureNew: bool, newKey: KeyData, storeOk: bool)
    : Outcome<(PrincipalKey, KeyState)>
  {
    match RotationTarget(st, current.keyInfo, newName, newProviderName)
    case Raised(e) => Raised(e)
    case Done(info) =>
      match ProviderById(RegistryOf(st.registries, ScopeOf(info)), info.keyringId)
      case Err(e) => Raised(ProviderLookupFailed(e))
      case Ok(None) => Raised(KeyringMissing)
      case Ok(Some(keyring)) => LoadOrGenerate(st, info, keyring, ensureNew, newKey, storeOk)
  }

  /**
   * RotatePrincipalKey; `rotateOk` is what pg_tde_perform_rotate_key returns,
   * and on success the store holds the new key's info. Outside the global
   * tablespace the cache entry is then replaced by the new key.
   */
  function RotatePrincipalKeySpec(st: KeyState, current: PrincipalKey, newName: Option<string>, newProviderName: Option<string>,
                                  ensureNew: bool, newKey: KeyData, storeOk: bool, rotateOk: bool)
    : (Outcome<bool>, KeyState)
  {
    match RotatedKey(st, current, newName, newProviderName, ensureNew, newKey, storeOk)
    case Raised(e) => (Raised(e), st)
    case Done(made) =>
      var pk := made.0;
      var st1 := made.1;
      if !rotateOk then (Done(false), st1)
      else
        var st2 := st1.(store := st1.store[ScopeOf(current.keyInfo) := pk.keyInfo]);
        if current.keyInfo.tablespaceId != GLOBALTABLESPACE_OID then
          (Done(true), st2.(cache := Push(Clear(st2.cache, current.keyInfo.databaseId), pk)))
        else (Done(true), st2)
  }

  /** How the rotation target is chosen from the current key and the arguments. */
  lemma RotationTargetChoice(st: KeyState, info: PrincipalKeyInfo, newName: Option<string>, newProviderName: Option<string>)
    ensures newName.None? ==>
      RotationTarget(st, info, newName, newProviderName) == Done(info.(keyId := info.keyId.(version := info.keyId.version + 1)))
    ensures RotationTarget(st, info, newName, newProviderName).Done? ==>
      var t := RotationTarget(st, info, newName, newProviderName).value;
      ScopeOf(t) == ScopeOf(info) && t.creationTime == info.creationTime
      && (newName.Some? ==> t.keyId.name == newName.value && t.keyId.version == DEFAULT_PRINCIPAL_KEY_VERSION)
      && (newName.None? || newProviderName.None? ==> t.keyringId == info.keyringId)
      && (newName.Some? && newProviderName.Some? ==>
            ProviderByName(RegistryOf(st.registries, ScopeOf(info)), newProviderName.value).Ok?
            && t.keyringId == ProviderByName(RegistryOf(st.registries, ScopeOf(info)), newProviderName.value).value.keyId)
  {
  }

  /** A provider name given without a new key name is ignored. */
  lemma RotationIgnoresProviderWithoutName(st: KeyState, info: PrincipalKeyInfo, p1: Option<string>, p2: Option<string>)
    ensures RotationTarget(st, info, None, p1) == RotationTarget(st, info, None, p2)
  {
  }

  /**
   * A rotation without a new name moves to a strictly higher version of the
   * same name on the same keyring, and keeps the scope and the creation time.
   */
  lemma RotateWithoutNameAdvancesVersion(st: KeyState, current: PrincipalKey, newProviderName: Option<string>,
                                         ensureNew: bool, newKey: KeyData, storeOk: bool)
    requires RotatedKey(st, current, None, newProviderName, ensureNew, newKey, storeOk).Done?
    ensures var pk := RotatedKey(st, current, None, newProviderName, ensureNew, newKey, storeOk).value.0;
      pk.keyInfo.keyId.name == current.keyInfo.keyId.name
      && pk.keyInfo.keyId.version > current.keyInfo.keyId.version
      && pk.keyInfo.keyringId == current.keyInfo.keyringId
      && ScopeOf(pk.keyInfo) == ScopeOf(current.keyInfo)
      && pk.keyInfo.creationTime == current.keyInfo.creationTime
  {
    var info := RotationTarget(st, current.keyInfo, None, newProviderName).value;
    var keyring := ProviderById(RegistryOf(st.registries, ScopeOf(info)), info.keyringId).value.value;
    assert RotatedKey(st, current, None, newProviderName, ensureNew, newKey, storeOk)
      == LoadOrGenerate(st, info, keyring, ensureNew, newKey, storeOk);
  }

  /**
   * After a successful rotation outside the global tablespace the cache holds
   * the new key for the database and the store holds its info; after a
   * failed one, neither the cache nor the store changes.
   */
  lemma RotateReplacesCachedKey(st: KeyState, current: PrincipalKey, newName: Option<string>, newProviderName: Option<string>,
                                ensureNew: bool, newKey: KeyData, storeOk: bool, rotateOk: bool)
    requires RotatePrincipalKeySpec(st, current, newName, newProviderName, ensureNew, newKey, storeOk, rotateOk).0.Done?
    ensures var s := RotatePrincipalKeySpec(st, current, newName, newProviderName, ensureNew, newKey, storeOk, rotateOk);
      var pk := RotatedKey(st, current, newName, newProviderName, ensureNew, newKey, storeOk).value.0;
      var db := current.keyInfo.databaseId;
      (s.0.value == rotateOk)
      && (rotateOk ==> s.1.store == st.store[ScopeOf(current.keyInfo) := pk.keyInfo])
      && (rotateOk && current.keyInfo.tablespaceId != GLOBALTABLESPACE_OID ==> db in s.1.cache && s.1.cache[db] == pk)
      && (rotateOk && current.keyInfo.tablespaceId == GLOBALTABLESPACE_OID ==> s.1.cache == st.cache)
      && (!rotateOk ==> s.1.store == st.store && s.1.cache == st.cache)
  {
    RotatedKeyFacts(st, current, newName, newProviderName, ensureNew, newKey, storeOk);
  }

  /** The rotated key stays in the current key's scope; building it changes at most the key stores. */
  lemma RotatedKeyFacts(st: KeyState, current: PrincipalKey, newName: Option<string>, newProviderName: Option<string>,
                        ensureNew: bool, newKey: KeyData, storeOk: bool)
    requires RotatedKey(st, current, newName, newProviderName, ensureNew, newKey, storeOk).Done?
    ensures var made := RotatedKey(st, current, newName, newProviderName, ensureNew, newKey, storeOk).value;
      made.1.cache == st.cache && made.1.store == st.store && made.1.registries == st.registries
      && ScopeOf(made.0.keyInfo) == ScopeOf(current.keyInfo)
  {
    var info := RotationTarget(st, current.keyInfo, newName, newProviderName).value;
    assert ScopeOf(info) == ScopeOf(current.keyInfo);
    var keyring := ProviderById(RegistryOf(st.registries, ScopeOf(info)), info.keyringId).value.value;
    assert RotatedKey(st, current, newName, newProviderName, ensureNew, newKey, storeOk)
      == LoadOrGenerate(st, info, keyring, ensureNew, newKey, storeOk);
  }

  /**
   * After a rotation the new key's provider, looked up by the new key's
   * keyring id in the scope's registry, holds the new bytes under the new
   * versioned name, and every key held before is still held: earlier
   * versions stay resolvable.
   */
  lemma RotatedKeyHeldByProvider(st: KeyState, current: PrincipalKey, newName: Option<string>, newProviderName: Option<string>,
                                 ensureNew: bool, newKey: KeyData, storeOk: bool)
    requires RotatedKey(st, current, newName, newProviderName, ensureNew, newKey, storeOk).Done?
    ensures var made := RotatedKey(st, current, newName, newProviderName, ensureNew, newKey, storeOk).value;
      var found := ProviderById(RegistryOf(st.registries, ScopeOf(current.keyInfo)), made.0.keyInfo.keyringId);
      found.Ok? && found.value.Some?
      && HasKey(StoreOf(made.1.keyStores, found.value.value.config), made.0.keyInfo.keyId.versionedName)
      && StoreOf(made.1.keyStores, found.value.value.config).keys[made.0.keyInfo.keyId.versionedName] == made.0.keyData
    ensures var made := RotatedKey(st, current, newName, newProviderName, ensureNew, newKey, storeOk).value;
      forall c: KeyringConfig, n: string :: n in StoreOf(st.keyStores, c).keys ==>
        n in StoreOf(made.1.keyStores, c).keys && StoreOf(made.1.keyStores, c).keys[n] == StoreOf(st.keyStores, c).keys[n]
  {
    var info := RotationTarget(st, current.keyInfo, newName, newProviderName).value;
    assert ScopeOf(info) == ScopeOf(current.keyInfo);
    var keyring := ProviderById(RegistryOf(st.registries, ScopeOf(info)), info.keyringId).value.value;
    assert RotatedKey(st, current, newName, newProviderName, ensureNew, newKey, storeOk)
      == LoadOrGenerate(st, info, keyring, ensureNew, newKey, storeOk);
    LoadOrGenerateHoldsKey(st, info, keyring, ensureNew, newKey, storeOk);
  }

  lemma RotateKeepsValid(st: KeyState, current: PrincipalKey, newName: Option<string>, newProviderName: Option<string>,
                         ensureNew: bool, newKey: KeyData, storeOk: bool, rotateOk: bool)
    requires StateValid(st)
    ensures StateValid(RotatePrincipalKeySpec(st, current, newName, newProviderName, ensureNew, newKey, storeOk, rotateOk).1)
  {
    var m := RotatedKey(st, current, newName, newProviderName, ensureNew, newKey, storeOk);
    if m.Done? && rotateOk {
      RotatedKeyFacts(st, current, newName, newProviderName, ensureNew, newKey, storeOk);
      var pk := m.value.0;
      var st1 := m.value.1;
      var st2 := st1.(store := st1.store[ScopeOf(current.keyInfo) := pk.keyInfo]);
      assert StateValid(st2);
      if current.keyInfo.tablespaceId != GLOBALTABLESPACE_OID {
        var cleared := st2.(cache := Clear(st2.cache, current.keyInfo.databaseId));
        assert StateValid(cleared);
        PushKeepsValid(cleared, pk);
      }
    } else if m.Done? {
      RotatedKeyFacts(st, current, newName, newProviderName, ensureNew, newKey, storeOk);
    }
  }

  // ------------------------------------------------------------------
  // GetPrincipalKeyProviderId and the creation timestamp

  /**
   * GetPrincipalKeyProviderId as written: the cache supplies an id, but the
   * block meant as its else branch runs unconditionally, so stored info for
   * the scope always overrides it.
   */
  function ProviderIdAsWritten(st: KeyState, db: Oid, spc: Oid): Oid {
    var fromCache := if db in st.cache then st.cache[db].keyInfo.keyringId else InvalidOid;
    if Scope(db, spc) in st.store then st.store[Scope(db, spc)].keyringId else fromCache
  }

  /** The cache-first lookup the comment describes. */
  function ProviderIdCacheFirst(st: KeyState, db: Oid, spc: Oid): Oid {
    if db in st.cache then st.cache[db].keyInfo.keyringId
    else if Scope(db, spc) in st.store then st.store[Scope(db, spc)].keyringId
    else InvalidOid
  }

  /** Stored info wins over the cache; the cache answers only without stored info; otherwise InvalidOid. */
  lemma ProviderIdStoreOverridesCache(st: KeyState, db: Oid, spc: Oid)
    ensures Scope(db, spc) in st.store ==> ProviderIdAsWritten(st, db, spc) == st.store[Scope(db, spc)].keyringId
    ensures Scope(db, spc) !in st.store && db in st.cache ==> ProviderIdAsWritten(st, db, spc) == st.cache[db].keyInfo.keyringId
    ensures Scope(db, spc) !in st.store && db !in st.cache ==> ProviderIdAsWritten(st, db, spc) == InvalidOid
  {
  }

  /** The two readings differ only when the cache and the store disagree about the keyring. */
  lemma ProviderIdAgreesWhenConsistent(st: KeyState, db: Oid, spc: Oid)
    requires db in st.cache && Scope(db, spc) in st.store ==>
      st.cache[db].keyInfo.keyringId == st.store[Scope(db, spc)].keyringId
    ensures ProviderIdAsWritten(st, db, spc) == ProviderIdCacheFirst(st, db, spc)
  {
  }

  const POSTGRES_EPOCH_JDATE: int := 2451545
  const UNIX_EPOCH_JDATE: int := 2440588
  const SECS_PER_DAY: int := 86400
  const USECS_PER_SEC: int := 1000000

  /** The creation time as a TimestampTz: microseconds since 2000-01-01 00:00 UTC. */
  function CreationTimestamp(t: Timeval): int {
    (t.tvSec - (POSTGRES_EPOCH_JDATE - UNIX_EPOCH_JDATE) * SECS_PER_DAY) * USECS_PER_SEC + t.tvUsec
  }

  /** With tv_usec in range, the timestamp gives back both parts of the timeval. */
  lemma CreationTimestampRoundTrip(t: Timeval)
    requires 0 <= t.tvUsec < USECS_PER_SEC
    ensures CreationTimestamp(t) / USECS_PER_SEC + (POSTGRES_EPOCH_JDATE - UNIX_EPOCH_JDATE) * SECS_PER_DAY == t.tvSec
    ensures CreationTimestamp(t) % USECS_PER_SEC == t.tvUsec
  {
  }


  /** Later timevals (with tv_usec in range) give later timestamps. */
  lemma CreationTimestampMonotone(t1: Timeval, t2: Timeval)
    requires 0 <= t1.tvUsec < USECS_PER_SEC && 0 <= t2.tvUsec < USECS_PER_SEC
    requires t1.tvSec < t2.tvSec || (t1.tvSec == t2.tvSec && t1.tvUsec <= t2.tvUsec)
    ensures CreationTimestamp(t1) <= CreationTimestamp(t2)
  {
  }

  // ------------------------------------------------------------------
  // The recursion counter when an ERROR escapes

  /**
   * The counter as the source leaves it: every return restores it, but an
   * ERROR raised between the increment and a return (by the provider
   * lookup) unwinds past the decrement.
   */
  function RecursionAfterAsWritten(recursion: int, r: Outcome<Option<PrincipalKey>>): int {
    if recursion > 0 then recursion else if r.Raised? then recursion + 1 else recursion
  }

  /**
   * As written, once one GetPrincipalKey has raised, every later call returns
   * NULL, even for a database whose key is cached.
   */
  lemma AsWrittenErrorDisablesLookup(st: KeyState, db: Oid, spc: Oid, racer: Option<PrincipalKey>, db2: Oid, spc2: Oid)
    requires GetPrincipalKeySpec(st, 0, db, spc, racer).0.Raised?
    ensures var s := GetPrincipalKeySpec(st, 0, db, spc, racer);
      var counter := RecursionAfterAsWritten(0, s.0);
      counter == 1 && GetPrincipalKeySpec(s.1, counter, db2, spc2, None) == (Done(None), s.1)
  {
  }

  /** An input that raises: the scope's info names keyring 1, and the registry file ends in a partial record. */
  lemma CorruptRegistryRaises(info: PrincipalKeyInfo)
    requires info.databaseId == 5 && info.tablespaceId == 1663
    ensures var scope := Scope(5, 1663);
      var st := KeyState(map[], map[scope := info], map[scope := ProviderFile([], 7)], map[]);
      GetPrincipalKeySpec(st, 0, 5, 1663, None).0 == Raised(ProviderLookupFailed(FileCorrupted(7)))
  {
    var scope := Scope(5, 1663);
    var st := KeyState(map[], map[scope := info], map[scope := ProviderFile([], 7)], map[]);
    assert RegistryOf(st.registries, scope) == Some(ProviderFile([], 7));
    assert ScanResult(Some(ProviderFile([], 7)), ScanById(info.keyringId)) == Err(FileCorrupted(7));
  }

  // ------------------------------------------------------------------

  /** The principal-key state of the cluster as one backend sees it. */
  class PrincipalKeyManager {
    var cache: map<Oid, PrincipalKey>
    var store: map<Scope, PrincipalKeyInfo>
    var registries: map<Scope, ProviderFile>
    var keyStores: map<KeyringConfig, KeyStore>
    /** GetPrincipalKey's static recursion counter. */
    var recursion: int

    ghost function State(): KeyState
      reads this
    {
      KeyState(cache, store, registries, keyStores)
    }

    ghost predicate Valid()
      reads this
    {
      StateValid(State()) && recursion >= 0
    }

    constructor (st: KeyState)
      requires StateValid(st)
      ensures Valid() && State() == st && recursion == 0
    {
      cache := st.cache;
      store := st.store;
      registries := st.registries;
      keyStores := st.keyStores;
      recursion := 0;
    }

    /** push_principal_key_to_cache */
    method PushPrincipalKeyToCache(pk: PrincipalKey)
      modifies this`cache
      ensures cache == Push(old(cache), pk)
    {
      var databaseId := pk.keyInfo.databaseId;
      if databaseId !in cache {
        cache := cache[databaseId := pk];
      }
    }

    /** clear_principal_key_cache */
    method ClearPrincipalKeyCache(databaseId: Oid)
      modifies this`cache
      ensures cache == Clear(old(cache), databaseId)
    {
      if databaseId in cache {
        cache := cache - {databaseId};
      }
    }

    /**
     * GetPrincipalKey. The counter is restored on every exit, including the
     * error exit that the source misses (see RecursionAfterAsWritten).
     */
    method GetPrincipalKey(db: Oid, spc: Oid, racer: Option<PrincipalKey>) returns (r: Outcome<Option<PrincipalKey>>)
      requires Valid()
      modifies this`cache, this`recursion
      ensures Valid() && recursion == old(recursion)
      ensures (r, State()) == GetPrincipalKeySpec(old(State()), old(recursion), db, spc, racer)
    {
      if recursion > 0 {
        return Done(None);
      }
      recursion := recursion + 1;
      if spc != GLOBALTABLESPACE_OID && db in cache {
        recursion := recursion - 1;
        return Done(Some(cache[db]));
      }
      if racer.Some? {
        PushPrincipalKeyToCache(racer.value);
      }
      if spc != GLOBALTABLESPACE_OID && db in cache {
        recursion := recursion - 1;
        return Done(Some(cache[db]));
      }
      r := LoadPrincipalKey(Scope(db, spc));
      if r.Done? && r.value.Some? && spc != GLOBALTABLESPACE_OID {
        PushPrincipalKeyToCache(r.value.value);
      }
      recursion := recursion - 1;
    }

    /** The slow path of GetPrincipalKey: the stored info, then its provider, then the key bytes. */
    method LoadPrincipalKey(scope: Scope) returns (r: Outcome<Option<PrincipalKey>>)
      ensures r == LoadedKeyFor(State(), scope)
      ensures scope !in store ==> r == Done(None)
      ensures scope in store ==>
        var found := ProviderById(RegistryOf(registries, scope), store[scope].keyringId);
        (found.Err? ==> r == Raised(ProviderLookupFailed(found.error)))
        && (found.Ok? && found.value.None? ==> r == Done(None))
        && (found.Ok? && found.value.Some? ==>
              var ks := StoreOf(keyStores, found.value.value.config);
              var name := store[scope].keyId.versionedName;
              (!HasKey(ks, name) ==> r == Done(None))
              && (HasKey(ks, name) ==> r == Done(Some(PrincipalKey(store[scope], ks.keys[name])))))
    {
      if scope !in store {
        return Done(None);
      }
      var info := store[scope];
      var keyring := ProviderById(RegistryOf(registries, scope), info.keyringId);
      if keyring.Err? {
        return Raised(ProviderLookupFailed(keyring.error));
      }
      if keyring.value.None? {
        return Done(None);
      }
      var g := KeyringGetKey(StoreOf(keyStores, keyring.value.value.config), info.keyId.versionedName);
      if g.0.None? {
        return Done(None);
      }
      return Done(Some(PrincipalKey(info, g.0.value)));
    }

    /** The probe-then-generate step of setting and rotating; updates the key store it generates into. */
    method LoadOrGenerateKey(info: PrincipalKeyInfo, keyring: GenericKeyring, ensureNew: bool, newKey: KeyData, storeOk: bool)
      returns (r: Outcome<PrincipalKey>)
      modifies this`keyStores
      ensures var m := LoadOrGenerate(old(State()), info, keyring, ensureNew, newKey, storeOk);
        (m.Raised? ==> r == Raised(m.error) && keyStores == old(keyStores))
        && (m.Done? ==> r == Done(m.value.0) && keyStores == m.value.1.keyStores)
    {
      var ks := StoreOf(keyStores, keyring.config);
      var loaded, info' := LoadLatestVersionedKeyName(info, ks, ensureNew);
      match loaded {
        case LoadFatal(c) =>
          return Raised(KeyringFatal(c));
        case LoadTooManyVersions =>
          return Raised(TooManyVersions);
        case Loaded(key, v) =>
          if key.Some? {
            return Done(PrincipalKey(info', key.value));
          }
          var g := KeyringGenerateNewKeyAndStore(ks, info'.keyId.versionedName, newKey, storeOk);
          if g.0.None? {
            return Raised(KeyGenerationFailed);
          }
          keyStores := keyStores[keyring.config := g.1];
          return Done(PrincipalKey(info', g.0.value));
      }
    }

    /** set_principal_key_with_keyring */
    method SetPrincipalKeyWithKeyring(keyName: string, keyring: GenericKeyring, db: Oid, spc: Oid,
                                      ensureNew: bool, now: Timeval, newKey: KeyData, storeOk: bool)
      returns (r: Outcome<PrincipalKey>)
      requires Valid()
      modifies this`cache, this`store, this`keyStores
      ensures Valid()
      ensures (r, State()) == SetPrincipalKeyWithKeyringSpec(old(State()), keyName, keyring, db, spc, ensureNew, now, newKey, storeOk)
    {
      ghost var st := State();
      SetKeepsValid(st, keyName, keyring, db, spc, ensureNew, now, newKey, storeOk);
      if db in cache || Scope(db, spc) in store {
        return Raised(DuplicatePrincipalKey);
      }
      var info := PrincipalKeyInfo(db, spc, keyring.keyId, now, PrincipalKeyId(keyName, DEFAULT_PRINCIPAL_KEY_VERSION, ""));
      var made := LoadOrGenerateKey(info, keyring, ensureNew, newKey, storeOk);
      if made.Raised? {
        return made;
      }
      store := store[Scope(db, spc) := made.value.keyInfo];
      PushPrincipalKeyToCache(made.value);
      return made;
    }

    /** SetPrincipalKey: returns true once a key is set. */
    method SetPrincipalKey(keyName: string, providerName: string, db: Oid, spc: Oid,
                           ensureNew: bool, now: Timeval, newKey: KeyData, storeOk: bool)
      returns (r: Outcome<bool>)
      requires Valid()
      modifies this`cache, this`store, this`keyStores
      ensures Valid()
      ensures (r, State()) == SetPrincipalKeySpec(old(State()), keyName, providerName, db, spc, ensureNew, now, newKey, storeOk)
    {
      var keyring := ProviderByName(RegistryOf(registries, Scope(db, spc)), providerName);
      if keyring.Err? {
        return Raised(ProviderLookupFailed(keyring.error));
      }
      var outcome := SetPrincipalKeyWithKeyring(keyName, keyring.value, db, spc, ensureNew, now, newKey, storeOk);
      if outcome.Raised? {
        return Raised(outcome.error);
      }
      return Done(true);
    }

    /** The new key of RotatePrincipalKey: its name, version and keyring, then the probe and any generation. */
    method BuildRotatedKey(current: PrincipalKey, newName: Option<string>, newProviderName: Option<string>,
                           ensureNew: bool, newKey: KeyData, storeOk: bool)
      returns (r: Outcome<PrincipalKey>)
      modifies this`keyStores
      ensures var m := RotatedKey(old(State()), current, newName, newProviderName, ensureNew, newKey, storeOk);
        (m.Raised? ==> r == Raised(m.error) && keyStores == old(keyStores))
        && (m.Done? ==> r == Done(m.value.0) && keyStores == m.value.1.keyStores)
    {
      var target := RotationTarget(KeyState(cache, store, registries, keyStores), current.keyInfo, newName, newProviderName);
      if target.Raised? {
        return Raised(target.error);
      }
      var info := target.value;
      var keyring := ProviderById(RegistryOf(registries, ScopeOf(info)), info.keyringId);
      if keyring.Err? {
        return Raised(ProviderLookupFailed(keyring.error));
      }
      if keyring.value.None? {
        return Raised(KeyringMissing);
      }
      r := LoadOrGenerateKey(info, keyring.value.value, ensureNew, newKey, storeOk);
    }

    /** RotatePrincipalKey */
    method RotatePrincipalKey(current: PrincipalKey, newName: Option<string>, newProviderName: Option<string>,
                              ensureNew: bool, newKey: KeyData, storeOk: bool, rotateOk: bool)
      returns (r: Outcome<bool>)
      requires Valid()
      modifies this`cache, this`store, this`keyStores
      ensures Valid()
      ensures (r, State()) == RotatePrincipalKeySpec(old(State()), current, newName, newProviderName, ensureNew, newKey, storeOk, rotateOk)
    {
      ghost var st := State();
      RotateKeepsValid(st, current, newName, newProviderName, ensureNew, newKey, storeOk, rotateOk);
      ghost var m := RotatedKey(st, current, newName, newProviderName, ensureNew, newKey, storeOk);
      if m.Done? {
        RotatedKeyFacts(st, current, newName, newProviderName, ensureNew, newKey, storeOk);
      }
      var made := BuildRotatedKey(current, newName, newProviderName, ensureNew, newKey, storeOk);
      if made.Raised? {
        return Raised(made.error);
      }
      assert State() == m.value.1;
      if !rotateOk {
        return Done(false);
      }
      store := store[ScopeOf(current.keyInfo) := made.value.keyInfo];
      if current.keyInfo.tablespaceId != GLOBALTABLESPACE_OID {
        ClearPrincipalKeyCache(current.keyInfo.databaseId);
        PushPrincipalKeyToCache(made.value);
      }
      return Done(true);
    }

    /** GetPrincipalKeyProviderId as written (the store read is not in an else branch). */
    method GetPrincipalKeyProviderId(db: Oid, spc: Oid) returns (keyringId: Oid)
      ensures keyringId == ProviderIdAsWritten(State(), db, spc)
    {
      keyringId := InvalidOid;
      if db in cache {
        keyringId := cache[db].keyInfo.keyringId;
      }
      if Scope(db, spc) in store {
        keyringId := store[Scope(db, spc)].keyringId;
      }
    }
  }
}
