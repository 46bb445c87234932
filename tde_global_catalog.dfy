/**
 * The global-tablespace key path (src/catalog/tde_global_catalog.c): at
 * server start a default file provider is registered for the global scope if
 * it has none, and the internal key that encrypts WAL is either created
 * (first start: no map file yet) or read back from the map file, and then
 * kept in an in-memory slot array.
 *
 * Encryption is symbolic: an encrypted relation key records the principal
 * key that wraps it and the plain key it wraps. The random bytes, the
 * clock, the provider's store outcome and the outcome of RAND_bytes are
 * parameters.
 */
module TdeGlobalCatalog {
  import opened Wrappers
  import opened KeyringApi
  import opened TdeKeyring
  import opened TdePrincipalKey

  /**
   * The oids of the global data scope and of the WAL key's relation; the
   * header that defines them is not part of this model. No proof depends on
   * their values.
   */
  const GLOBAL_DATA_TDE_OID: Oid := 0
  const XLOG_TDE_OID: Oid := 1

  const PRINCIPAL_KEY_DEFAULT_NAME: string := "tde-global-catalog-key"
  const KEYRING_DEFAULT_NAME: string := "default_global_tablespace_keyring"
  const DEFAULT_KEYRING_PATH: string := "pg_tde_default_keyring_CHANGE_IT_AND_REMOVE"

  /** The JSON members of the default provider's option text. */
  const DEFAULT_KEYRING_OPTIONS: Options := map["type" := "file", "path" := DEFAULT_KEYRING_PATH]

  /** InternalKeyType; TDE_INTERNAL_KEYS_COUNT is the number of its constants. */
  datatype InternalKeyType = TdeInternalXlogKey

  const TDE_INTERNAL_KEYS_COUNT: nat := 1

  function KeyTypeIndex(t: InternalKeyType): (i: nat)
    ensures i < TDE_INTERNAL_KEYS_COUNT
  {
    match t
    case TdeInternalXlogKey => 0
  }

  /** InternalKey: the key bytes (the relation type tag and the cipher context are not modelled). */
  datatype InternalKey = InternalKey(key: KeyData)

  /** RelKeyData */
  datatype RelKeyData = RelKeyData(principalKeyId: PrincipalKeyId, internalKey: InternalKey)

  /** tde_encrypt_rel_key's result, symbolically: the wrapping principal key and the plain key. */
  datatype EncryptedRelKey = EncryptedRelKey(wrappingKey: PrincipalKey, plain: RelKeyData)

  /** The entry pg_tde_write_key_map_entry puts in the global space's map file. */
  datatype MapEntry = MapEntry(encKey: EncryptedRelKey, principalKeyInfo: PrincipalKeyInfo)

  datatype GlError =
    | GlRegistryError(registryError: RegistryError)
    | PrincipalKeyGenerationFailed
    | RandBytesFailed
    | UnknownInternalKey(objId: Oid)

  datatype GlOutcome<T> = GlOk(value: T) | GlFailed(error: GlError)

  // ------------------------------------------------------------------
  // init_default_keyring

  /**
   * init_default_keyring on the global scope's registry: when the scan of all
   * providers comes back empty, save the default file provider. The Ok value
   * says whether a provider was registered.
   */
  function InitDefaultKeyringSpec(file: Option<ProviderFile>, io: SaveIo): (Result<bool>, Option<ProviderFile>) {
    match ScanResult(file, ScanAll)
    case Err(e) => (Err(e), file)
    case Ok(providers) =>
      if providers != [] then (Ok(false), file)
      else
        var s := SaveOutcome(file, KEYRING_DEFAULT_NAME, FileKeyProvider, DEFAULT_KEYRING_OPTIONS, io);
        (if s.0.Ok? then Ok(true) else Err(s.0.error), s.1)
  }

  /** With a provider already loadable, nothing is registered and the file is left alone. */
  lemma InitDefaultKeyringKeepsExisting(file: Option<ProviderFile>, io: SaveIo)
    requires ScanResult(file, ScanAll).Ok? && ScanResult(file, ScanAll).value != []
    ensures InitDefaultKeyringSpec(file, io) == (Ok(false), file)
  {
  }

  /**
   * On a scope without loadable providers, a successful registration leaves
   * exactly one loadable provider: the default file keyring, which the lookup
   * by its name then returns.
   */
  lemma InitDefaultKeyringRegistersDefault(file: Option<ProviderFile>, io: SaveIo)
    requires ScanResult(file, ScanAll) == Ok([])
    requires InitDefaultKeyringSpec(file, io).0 == Ok(true)
    ensures var file' := InitDefaultKeyringSpec(file, io).1;
      var id := SaveOutcome(file, KEYRING_DEFAULT_NAME, FileKeyProvider, DEFAULT_KEYRING_OPTIONS, io).0.value;
      var dflt := GenericKeyring(id, KEYRING_DEFAULT_NAME, FileKeyProvider, FileKeyring(DEFAULT_KEYRING_PATH));
      ScanResult(file', ScanAll) == Ok([dflt])
      && ProviderByName(file', KEYRING_DEFAULT_NAME) == Ok(dflt)
  {
    var s := SaveOutcome(file, KEYRING_DEFAULT_NAME, FileKeyProvider, DEFAULT_KEYRING_OPTIONS, io);
    var id := s.0.value;
    var dflt := GenericKeyring(id, KEYRING_DEFAULT_NAME, FileKeyProvider, FileKeyring(DEFAULT_KEYRING_PATH));
    var rec := ProviderRecord(id, KEYRING_DEFAULT_NAME, FileKeyProvider, DEFAULT_KEYRING_OPTIONS);
    SaveAppendsOneRecord(file, KEYRING_DEFAULT_NAME, FileKeyProvider, DEFAULT_KEYRING_OPTIONS, io);
    var recs := OpenedForWrite(file).records;
    var recs' := recs + [rec];
    assert s.1 == Some(ProviderFile(recs', 0));
    assert Selected(recs, ScanAll) == [] by {
      if file.Some? {
        assert ScanResult(file, ScanAll) == Ok(Selected(file.value.records, ScanAll));
      }
    }
    SelectedEmpty(recs, ScanAll);
    assert forall j :: 0 <= j < |recs| ==> Matches(recs[j], ScanAll);
    SelectedEmpty(recs, ScanByName(KEYRING_DEFAULT_NAME));
    assert Selected(recs, ScanByName(KEYRING_DEFAULT_NAME)) == [];
    assert recs'[..|recs'| - 1] == recs;
    CString.ExactImpliesCaseEq(KEYRING_DEFAULT_NAME, KEYRING_DEFAULT_NAME);
    assert LoadKeyringProviderFromRecord(rec) == Some(dflt);
    assert recs'[|recs'| - 1] == rec;
    assert Picked(rec, ScanByName(KEYRING_DEFAULT_NAME)) == [dflt];
    assert Selected(recs', ScanAll) == [] + [dflt];
    assert Selected(recs', ScanByName(KEYRING_DEFAULT_NAME)) == [] + [dflt];
    assert InitDefaultKeyringSpec(file, io).1 == s.1;
    assert [] + [dflt] == [dflt];
    assert s.1.value.records == recs' && s.1.value.tailBytes == 0;
    assert ScanResult(s.1, ScanAll) == Ok([dflt]);
    assert ScanResult(s.1, ScanByName(KEYRING_DEFAULT_NAME)) == Ok([dflt]);
  }

  /** Running the registration again after it succeeded registers nothing more. */
  lemma InitDefaultKeyringIdempotent(file: Option<ProviderFile>, io: SaveIo, io2: SaveIo)
    requires ScanResult(file, ScanAll) == Ok([])
    requires InitDefaultKeyringSpec(file, io).0 == Ok(true)
    ensures var file' := InitDefaultKeyringSpec(file, io).1;
      InitDefaultKeyringSpec(file', io2) == (Ok(false), file')
  {
    InitDefaultKeyringRegistersDefault(file, io);
  }

  // ------------------------------------------------------------------
  // create_principal_key

  /**
   * create_principal_key as written: the versioned name handed to the provider
   * is whatever the freshly allocated struct holds (`uninitialised`), since
   * nothing prints it first.
   */
  function CreatePrincipalKeyAsWritten(keyName: string, keyring: GenericKeyring, db: Oid, spc: Oid, now: Timeval,
                                       uninitialised: string, ks: KeyStore, newKey: KeyData, storeOk: bool)
    : (r: GlOutcome<(PrincipalKey, KeyStore)>)
    ensures r.GlOk? ==> r.value.0.keyInfo.keyId.versionedName == uninitialised
  {
    var info := PrincipalKeyInfo(db, spc, keyring.keyId, now, PrincipalKeyId(keyName, DEFAULT_PRINCIPAL_KEY_VERSION, uninitialised));
    var g := KeyringGenerateNewKeyAndStore(ks, uninitialised, newKey, storeOk);
    if g.0.None? then GlFailed(PrincipalKeyGenerationFailed) else GlOk((PrincipalKey(info, g.0.value), g.1))
  }

  /**
   * As written, with an empty name left in the allocation, the key is stored
   * under "" and the keyring still has nothing under "tde-global-catalog-key_0".
   */
  lemma AsWrittenKeyStoredUnderUninitialisedName(keyring: GenericKeyring, now: Timeval, newKey: KeyData)
    ensures var ks := KeyStore(map[], None, KeyringCodeSuccess, KeyringCodeSuccess);
      var r := CreatePrincipalKeyAsWritten(PRINCIPAL_KEY_DEFAULT_NAME, keyring, GLOBAL_DATA_TDE_OID, GLOBALTABLESPACE_OID,
                                           now, "", ks, newKey, true);
      r.GlOk? && r.value.1.keys == map["" := newKey]
      && !HasKey(r.value.1, VersionedName(PRINCIPAL_KEY_DEFAULT_NAME, DEFAULT_PRINCIPAL_KEY_VERSION))
  {
    var vn := VersionedName(PRINCIPAL_KEY_DEFAULT_NAME, DEFAULT_PRINCIPAL_KEY_VERSION);
    assert |vn| > 0;
  }

  /** create_principal_key with the versioned name printed as "name_<default version>" before it is used. */
  function CreatePrincipalKey(keyName: string, keyring: GenericKeyring, db: Oid, spc: Oid, now: Timeval,
                              ks: KeyStore, newKey: KeyData, storeOk: bool)
    : (r: GlOutcome<(PrincipalKey, KeyStore)>)
  {
    CreatePrincipalKeyAsWritten(keyName, keyring, db, spc, now, VersionedName(keyName, DEFAULT_PRINCIPAL_KEY_VERSION),
                                ks, newKey, storeOk)
  }

  /**
   * The new key's info comes from the arguments at the default version, its
   * bytes are the generated ones, and the provider now answers the key's own
   * versioned name with them; generation fails exactly when the provider
   * refuses the store.
   */
  lemma CreatePrincipalKeyFields(keyName: string, keyring: GenericKeyring, db: Oid, spc: Oid, now: Timeval,
                                 ks: KeyStore, newKey: KeyData, storeOk: bool)
    ensures var r := CreatePrincipalKey(keyName, keyring, db, spc, now, ks, newKey, storeOk);
      var name := VersionedName(keyName, DEFAULT_PRINCIPAL_KEY_VERSION);
      (r.GlFailed? <==> !(storeOk && ks.failure.None? && name !in ks.keys))
      && (r.GlFailed? ==> r.error == PrincipalKeyGenerationFailed)
      && (r.GlOk? ==>
            var pk := r.value.0;
            pk.keyInfo == PrincipalKeyInfo(db, spc, keyring.keyId, now, PrincipalKeyId(keyName, DEFAULT_PRINCIPAL_KEY_VERSION, name))
            && pk.keyData == newKey
            && KeyringGetKey(r.value.1, pk.keyInfo.keyId.versionedName).0 == Some(newKey))
  {
  }

  /**
   * The key stores once init_gl_catalog_keys has asked for the principal key:
   * when the default provider is registered and create_principal_key succeeds
   * with it, that provider's store is the one holding the new key; on every
   * other path nothing was stored.
   */
  function StoresAfterDefaultKey(file: Option<ProviderFile>, keyStores: map<KeyringConfig, KeyStore>,
                                 now: Timeval, newKey: KeyData, storeOk: bool): map<KeyringConfig, KeyStore>
  {
    var dflt := ProviderByName(file, KEYRING_DEFAULT_NAME);
    if dflt.Err? then keyStores
    else
      var made := CreatePrincipalKey(PRINCIPAL_KEY_DEFAULT_NAME, dflt.value, GLOBAL_DATA_TDE_OID, GLOBALTABLESPACE_OID, now,
                                     StoreOf(keyStores, dflt.value.config), newKey, storeOk);
      if made.GlFailed? then keyStores else keyStores[dflt.value.config := made.value.1]
  }

  // ------------------------------------------------------------------
  // The WAL internal key

  /**
   * The key material init_gl_catalog_keys produces from the principal key:
   * the plain relation key to cache and the map entry to write. A failed
   * RAND_bytes is fatal.
   */
  function NewXlogKey(mkey: PrincipalKey, randOk: bool, randBytes: KeyData): GlOutcome<(RelKeyData, MapEntry)> {
    if !randOk then GlFailed(RandBytesFailed)
    else
      var relKey := RelKeyData(mkey.keyInfo.keyId, InternalKey(randBytes));
      GlOk((relKey, MapEntry(EncryptedRelKey(mkey, relKey), mkey.keyInfo)))
  }

  /** The map entry holds the cached key encrypted under the principal key; memory holds it in the clear. */
  lemma NewXlogKeyWrapsCachedKey(mkey: PrincipalKey, randOk: bool, randBytes: KeyData)
    ensures NewXlogKey(mkey, randOk, randBytes).GlOk? <==> randOk
    ensures NewXlogKey(mkey, randOk, randBytes).GlFailed? ==> NewXlogKey(mkey, randOk, randBytes).error == RandBytesFailed
    ensures NewXlogKey(mkey, randOk, randBytes).GlOk? ==>
      var (plain, entry) := NewXlogKey(mkey, randOk, randBytes).value;
      entry.encKey.plain == plain && entry.encKey.wrappingKey == mkey
      && entry.principalKeyInfo == mkey.keyInfo && plain.principalKeyId == mkey.keyInfo.keyId
      && plain.internalKey.key == randBytes
  {
  }

  // ------------------------------------------------------------------

  /** The global catalog's key state in one server process. */
  class GlobalCatalog {
    /** internal_keys_cache: NULL until the first cache_internal_key. */
    var internalKeysCache: array?<Option<RelKeyData>>
    /** The global space's map file for the WAL key; None when the file does not exist. */
    var mapFile: Option<MapEntry>
    var keyStores: map<KeyringConfig, KeyStore>
    /** The global scope's provider registry. */
    const registry: KeyProviderInfoFile

    ghost predicate Valid()
      reads this, registry, internalKeysCache
    {
      registry.Valid()
      && (internalKeysCache != null ==>
            internalKeysCache.Length == TDE_INTERNAL_KEYS_COUNT
            && internalKeysCache[KeyTypeIndex(TdeInternalXlogKey)].Some?)
    }

    constructor (registry: KeyProviderInfoFile, mapFile: Option<MapEntry>, keyStores: map<KeyringConfig, KeyStore>)
      requires registry.Valid()
      ensures Valid() && internalKeysCache == null
      ensures this.registry == registry && this.mapFile == mapFile && this.keyStores == keyStores
    {
      this.registry := registry;
      this.mapFile := mapFile;
      this.keyStores := keyStores;
      internalKeysCache := null;
    }

    /** cache_internal_key: allocate the slots on the first call, then overwrite the one slot of `t`. */
    method CacheInternalKey(ikey: RelKeyData, t: InternalKeyType)
      requires internalKeysCache != null ==> internalKeysCache.Length == TDE_INTERNAL_KEYS_COUNT
      modifies this`internalKeysCache, internalKeysCache
      ensures internalKeysCache != null && internalKeysCache.Length == TDE_INTERNAL_KEYS_COUNT
      ensures old(internalKeysCache) != null ==> internalKeysCache == old(internalKeysCache)
      ensures old(internalKeysCache) == null ==> fresh(internalKeysCache)
      ensures internalKeysCache[KeyTypeIndex(t)] == Some(ikey)
      ensures forall i :: 0 <= i < internalKeysCache.Length && i != KeyTypeIndex(t) ==>
        internalKeysCache[i] == (if old(internalKeysCache) == null then None else old(internalKeysCache[i]))
    {
      if internalKeysCache == null {
        internalKeysCache := new Option<RelKeyData>[TDE_INTERNAL_KEYS_COUNT](_ => None);
      }
      internalKeysCache[KeyTypeIndex(t)] := Some(ikey);
    }

    /** GetGlCatInternalKey: the WAL oid maps to the WAL slot; any other oid is an error. */
    method GetGlCatInternalKey(objId: Oid) returns (r: GlOutcome<RelKeyData>)
      requires Valid() && internalKeysCache != null
      ensures objId == XLOG_TDE_OID ==> r == GlOk(internalKeysCache[KeyTypeIndex(TdeInternalXlogKey)].value)
      ensures objId != XLOG_TDE_OID ==> r == GlFailed(UnknownInternalKey(objId))
    {
      if objId == XLOG_TDE_OID {
        return GlOk(internalKeysCache[KeyTypeIndex(TdeInternalXlogKey)].value);
      }
      return GlFailed(UnknownInternalKey(objId));
    }

    /** init_default_keyring */
    method InitDefaultKeyring(io: SaveIo) returns (r: Result<bool>)
      requires Valid() && ValidSaveIo(io)
      modifies registry
      ensures Valid()
      ensures (r, registry.file) == InitDefaultKeyringSpec(old(registry.file), io)
    {
      var providers := registry.GetAllKeyringProviders();
      if providers.Err? {
        return Err(providers.error);
      }
      if providers.value != [] {
        return Ok(false);
      }
      var saved := registry.SaveKeyProvider(KEYRING_DEFAULT_NAME, FileKeyProvider, DEFAULT_KEYRING_OPTIONS, io);
      if saved.Err? {
        return Err(saved.error);
      }
      return Ok(true);
    }

    /**
     * init_gl_catalog_keys: create the principal key with the default
     * provider, then a random WAL key; write its encrypted form to the map
     * file and cache the plain one.
     */
    method InitGlCatalogKeys(now: Timeval, newKey: KeyData, storeOk: bool, randOk: bool, randBytes: KeyData)
      returns (r: GlOutcome<PrincipalKey>)
      requires Valid()
      modifies this`internalKeysCache, internalKeysCache, this`mapFile, this`keyStores
      ensures Valid()
      ensures r.GlOk? ==> mapFile.Some? && internalKeysCache != null
      ensures r.GlOk? ==>
        var slot := internalKeysCache[KeyTypeIndex(TdeInternalXlogKey)].value;
        NewXlogKey(r.value, randOk, randBytes) == GlOk((slot, mapFile.value))
      ensures r.GlOk? ==>
        var dflt := ProviderByName(registry.file, KEYRING_DEFAULT_NAME);
        dflt.Ok?
        && CreatePrincipalKey(PRINCIPAL_KEY_DEFAULT_NAME, dflt.value, GLOBAL_DATA_TDE_OID, GLOBALTABLESPACE_OID, now,
                              StoreOf(old(keyStores), dflt.value.config), newKey, storeOk).GlOk?
        && r.value == CreatePrincipalKey(PRINCIPAL_KEY_DEFAULT_NAME, dflt.value, GLOBAL_DATA_TDE_OID, GLOBALTABLESPACE_OID, now,
                                         StoreOf(old(keyStores), dflt.value.config), newKey, storeOk).value.0
      ensures keyStores == StoresAfterDefaultKey(registry.file, old(keyStores), now, newKey, storeOk)
      ensures r.GlFailed? ==> mapFile == old(mapFile) && internalKeysCache == old(internalKeysCache)
      ensures r.GlFailed? && old(internalKeysCache) != null ==> internalKeysCache[..] == old(internalKeysCache[..])
    {
      var keyring := registry.GetKeyProviderByName(KEYRING_DEFAULT_NAME);
      if keyring.Err? {
        return GlFailed(GlRegistryError(keyring.error));
      }
      var created := CreatePrincipalKey(PRINCIPAL_KEY_DEFAULT_NAME, keyring.value, GLOBAL_DATA_TDE_OID, GLOBALTABLESPACE_OID,
                                        now, StoreOf(keyStores, keyring.value.config), newKey, storeOk);
      if created.GlFailed? {
        return GlFailed(created.error);
      }
      keyStores := keyStores[keyring.value.config := created.value.1];
      var mkey := created.value.0;
      var made := NewXlogKey(mkey, randOk, randBytes);
      if made.GlFailed? {
        return GlFailed(made.error);
      }
      mapFile := Some(made.value.1);
      CacheInternalKey(made.value.0, TdeInternalXlogKey);
      return GlOk(mkey);
    }

    /**
     * TDEGlCatKeyInit: register the default provider if needed; without a map
     * file create the keys, otherwise cache the key the file holds (read back
     * and decrypted by pg_tde_get_key_from_file).
     */
    method TDEGlCatKeyInit(io: SaveIo, now: Timeval, newKey: KeyData, storeOk: bool, randOk: bool, randBytes: KeyData)
      returns (r: GlOutcome<()>)
      requires Valid() && ValidSaveIo(io)
      modifies registry, this`internalKeysCache, internalKeysCache, this`mapFile, this`keyStores
      ensures Valid()
      ensures r.GlOk? ==> internalKeysCache != null && mapFile.Some?
      ensures r.GlOk? ==> internalKeysCache[KeyTypeIndex(TdeInternalXlogKey)] == Some(mapFile.value.encKey.plain)
      ensures old(mapFile).Some? && r.GlOk? ==> mapFile == old(mapFile)
      ensures old(mapFile).None? && r.GlOk? ==> mapFile.value.encKey.plain.internalKey.key == randBytes
      ensures registry.file == InitDefaultKeyringSpec(old(registry.file), io).1
      ensures old(mapFile).Some? || InitDefaultKeyringSpec(old(registry.file), io).0.Err? ==> keyStores == old(keyStores)
      ensures old(mapFile).None? && InitDefaultKeyringSpec(old(registry.file), io).0.Ok? ==>
        keyStores == StoresAfterDefaultKey(registry.file, old(keyStores), now, newKey, storeOk)
      ensures old(mapFile).None? && r.GlOk? ==>
        var dflt := ProviderByName(registry.file, KEYRING_DEFAULT_NAME);
        dflt.Ok?
        && CreatePrincipalKey(PRINCIPAL_KEY_DEFAULT_NAME, dflt.value, GLOBAL_DATA_TDE_OID, GLOBALTABLESPACE_OID, now,
                              StoreOf(old(keyStores), dflt.value.config), newKey, storeOk).GlOk?
        && mapFile.value.encKey.wrappingKey
           == CreatePrincipalKey(PRINCIPAL_KEY_DEFAULT_NAME, dflt.value, GLOBAL_DATA_TDE_OID, GLOBALTABLESPACE_OID, now,
                                 StoreOf(old(keyStores), dflt.value.config), newKey, storeOk).value.0
    {
      var registered := InitDefaultKeyring(io);
      if registered.Err? {
        return GlFailed(GlRegistryError(registered.error));
      }
      if mapFile.None? {
        var created := InitGlCatalogKeys(now, newKey, storeOk, randOk, randBytes);
        if created.GlFailed? {
          return GlFailed(created.error);
        }
        return GlOk(());
      }
      var ikey := mapFile.value.encKey.plain;
      CacheInternalKey(ikey, TdeInternalXlogKey);
      return GlOk(());
    }
  }
}
