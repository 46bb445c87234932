# pg_tde key management in Dafny

A model of the key-management core of pg_tde, PostgreSQL's transparent data encryption extension, with proofs about the model. It covers four pieces.

- **The keyring-provider registry** (`TdeKeyring`, from `src/catalog/tde_keyring.c`).
  - It is a per-scope, append-only file of fixed-size provider records.
  - The model covers the type-name mapping, the option loaders, record fetching, save (duplicate check, `id = max + 1`, append) and the filtered scans.
  - It also covers the lookups by name, by id and of all providers.
  - The class `KeyProviderInfoFile` holds the file; its loops are proved against the functions `ScanResult` and `SaveOutcome`.
- **The file keyring provider** (`KeyringFile`, from `src/keyring/keyring_file.c`).
  - It is a flat file of key records: lookup by case-insensitive name, and store-if-absent.
  - The class `FileKeyringStore` holds the file.
- **The principal-key life cycle** (`TdePrincipalKey`, from `src/catalog/tde_principal_key.c`).
  - The model covers the version probe `load_latest_versioned_key_name`, `GetPrincipalKey` with its cache and recursion counter, set, rotate, the cache push and clear, `GetPrincipalKeyProviderId` and the creation-time conversion.
  - The class `PrincipalKeyManager` holds the shared cache, the durable principal-key info, the provider registries, the provider key stores and the recursion counter.
  - Each of its methods is proved equal to a state-transition function (`GetPrincipalKeySpec`, `SetPrincipalKeyWithKeyringSpec`, `RotatePrincipalKeySpec`, …), and the lemmas are about those functions.
- **The global-tablespace bootstrap** (`TdeGlobalCatalog`, from `src/catalog/tde_global_catalog.c`).
  - The model covers the default-provider registration, the creation of the principal key, the WAL internal key, the lazily allocated slot array and the start-up branch on the map file.

Two supporting modules:
- `KeyringApi` models the provider interface (`KeyringGetKey`, `KeyringGenerateNewKeyAndStore`) as an abstract key store; `keyring_api.c` is not part of this model.
- `CString` models `strcasecmp`, `strncasecmp` and `%d` printing, over `string` values without NUL characters. Folding is C-locale ASCII folding over characters (see "## Left out").

Decisions on the quirks of the code:
- **keyring_file.c reads and writes at offset 0.** Every `FileRead` and `FileWrite` call passes offset 0. The main members model the scan and the append the code evidently intends. The code as written is modelled beside them and recorded under "## Findings".
- **The return code of `KeyringGetKey`.** The file provider assigns `*return_code` neither on a hit nor at end of file, and the caller's variable (`kr_ret` in `load_latest_versioned_key_name`) is never initialised. A key store therefore carries the code a hit leaves (`hitCode`) and the code a miss leaves (`notFoundCode`) as parameters, standing for whatever that variable holds. The vault provider's codes are SUCCESS and RESOURCE_NOT_AVAILABLE. The probe lemmas say which codes they assume.
- **End of file in `get_key_by_name`.** The end-of-file path returns NULL without assigning `*return_code`. This is kept as written: the result `NotFound` carries no code, and the caller's code is left as it was. The assignment of SUCCESS after the loop (`keyring_file.c:82`) cannot be reached.
- **`GetPrincipalKeyProviderId` has no `else`.** It is modelled as written: stored info for the scope overrides the cached keyring id. A lemma shows this agrees with the cache-first reading whenever the cache and the store agree about the keyring.
- **`create_principal_key` never fills `versioned_name`.** As written, the name handed to the provider is a parameter, whatever the allocation holds. The global bootstrap uses a corrected member that prints `name_<default version>` first.
- **The recursion counter of `GetPrincipalKey`.** The method restores it on every exit, including an ERROR raised by the provider lookup. The source misses that exit; see "## Findings".

Stand-in constants: the headers that fix these values are not part of this model, and no proof depends on them beyond their being positive and distinct.
- Record sizes: `KEYRING_PROVIDER_RECORD_SIZE` 1160, `KEY_INFO_SIZE` 292, `KEY_NAME_LEN` 256.
- Versions: `DEFAULT_PRINCIPAL_KEY_VERSION` 0, `MAX_PRINCIPAL_KEY_VERSION_NUM` 100000.
- Oids: `GLOBALTABLESPACE_OID` 1664, `InvalidOid` 0, `GLOBAL_DATA_TDE_OID` 0, `XLOG_TDE_OID` 1.

## Model

| member | source | states |
|---|---|---|
| CString.NatToStringInjective | src/catalog/tde_principal_key.c:513-514 | Different version numbers print as different decimal strings. |
| CString.CaseFoldingNotInjective | src/catalog/tde_keyring.c:426 | `strcasecmp` equates names that `strcmp` keeps apart ("local" and "LOCAL"). |
| CString.ExactImpliesCaseEq | src/catalog/tde_keyring.c:348 | A name that is `strcmp`-equal is also `strcasecmp`-equal. |
| KeyringApi.KeyringGetKey | src/catalog/tde_principal_key.c:518 | A key comes back exactly when the provider is reachable and holds the name, and then with the store's hit code. A miss on a reachable provider gives the store's not-found code, and an unreachable provider gives its failure code. |
| KeyringApi.KeyringGenerateNewKeyAndStore | src/catalog/tde_principal_key.c:367 | Generation succeeds exactly when the provider is reachable, the name is free and the store succeeds. On success the new bytes are stored under the name; on failure nothing changes. |
| KeyringApi.GenerateKeepsExistingKeys | src/catalog/tde_principal_key.c:462 | Storing a new key never removes or alters a key already held, so earlier versions stay resolvable. |
| TdeKeyring.GetKeyringProviderFromTypename | src/catalog/tde_keyring.c:136-146 | FILE and VAULT_V2 exactly for the exact strings "file" and "vault-v2"; UNKNOWN exactly for NULL or any other string. |
| TdeKeyring.LoadFileKeyringProviderOptions | src/catalog/tde_keyring.c:224-240 | A file keyring loads exactly when `path` is present, and carries that path. |
| TdeKeyring.LoadVaultV2KeyringProviderOptions | src/catalog/tde_keyring.c:243-263 | A vault keyring loads exactly when token, url and mountPath are present. It carries each of them, and `caPath` defaults to "". |
| TdeKeyring.LoadKeyringProviderOptions | src/catalog/tde_keyring.c:207-221 | Dispatches on the type; an unknown type loads nothing. |
| TdeKeyring.LoadKeyringProviderFromRecord | src/catalog/tde_keyring.c:149-165 | A keyring loads exactly when its options load. It takes the record's id, name and type, and the type is never UNKNOWN. |
| TdeKeyring.BytesReadAt | src/catalog/tde_keyring.c:300 | A read returns at most one record's bytes, and 0 exactly at or past the end of the file. |
| TdeKeyring.FetchNextKeyProvider | src/catalog/tde_keyring.c:293-315 | Reading at a record boundary gives one of three results (each an iff). A whole record is the one at that index, and the cursor advances by exactly one record size. No bytes means end of data. A short count means a corrupted file, with that count. |
| TdeKeyring.SelectedPrefix | src/catalog/tde_keyring.c:418-450 | One more record extends the scan result by exactly that record's contribution, in file order. |
| TdeKeyring.SelectedMembers | src/catalog/tde_keyring.c:424-448 | A keyring is in a scan's result exactly when some record matches the scan key and loads to it. |
| TdeKeyring.SelectedEmpty | src/catalog/tde_keyring.c:442-448 | A scan is empty exactly when no record both matches and loads; records whose options fail to load are dropped. |
| TdeKeyring.SelectedHead | src/catalog/tde_keyring.c:442-447 | The first result comes from the first record that both matches and loads. |
| TdeKeyring.MaxProviderIdBound | src/catalog/tde_keyring.c:346-359 | The running maximum starts at 0 and bounds every stored id. |
| TdeKeyring.SaveAssignsFreshId | src/catalog/tde_keyring.c:346-359 | The new id is 1 + the largest stored id. It is at least 1, larger than every stored id, and 1 in an empty file. |
| TdeKeyring.SaveRejectsDuplicate | src/catalog/tde_keyring.c:346-355 | A `strcmp`-equal stored name is refused with DUPLICATE_OBJECT, and no record is added. |
| TdeKeyring.SaveAppendsOneRecord | src/catalog/tde_keyring.c:364-386 | A successful save appends exactly the new record, with the returned id, after all earlier records, which are unchanged. |
| TdeKeyring.SuccessiveSavesIncreaseIds | src/catalog/tde_keyring.c:359 | Two successive successful saves return strictly increasing ids. |
| TdeKeyring.SecondRegistrationRejected | src/catalog/tde_keyring.c:346-355 | Registering the same name twice refuses the second save and leaves the registry as the first save left it. |
| TdeKeyring.SavedProviderFoundById | src/catalog/tde_keyring.c:359-365 | After a successful save with loadable options, a scan by the new id finds exactly the new provider. |
| TdeKeyring.CaseVariantIsShadowed | src/catalog/tde_keyring.c:348 | A name that differs from a stored loadable one only in case passes the duplicate check. A later lookup of that name still answers with the older provider, never the one just saved. |
| TdeKeyring.ProviderByName | src/catalog/tde_keyring.c:174-191 | A scan error propagates. With no match the lookup raises "does not exist". Otherwise it returns the first match, which is case-insensitively equal to the name asked for. |
| TdeKeyring.ProviderById | src/catalog/tde_keyring.c:194-204 | A scan error propagates. With no match the lookup returns NULL. Otherwise it returns the first match, which has the id asked for. |
| TdeKeyring.KeyProviderInfoFile.ScanKeyProviderFile | src/catalog/tde_keyring.c:393-454 | The record loop returns `ScanResult`. A missing file gives the empty list. Otherwise the matches come in file order, and a trailing partial record raises corruption. |
| TdeKeyring.KeyProviderInfoFile.SaveKeyProvider | src/catalog/tde_keyring.c:321-387 | The scan-then-append loop returns `SaveOutcome` and leaves the file as `SaveOutcome` says, for every open, write and fsync outcome. |
| TdeKeyring.KeyProviderInfoFile.GetAllKeyringProviders | src/catalog/tde_keyring.c:168-171 | Returns the scan of all records. |
| TdeKeyring.KeyProviderInfoFile.GetKeyProviderByName | src/catalog/tde_keyring.c:174-191 | Returns `ProviderByName` of the file. |
| TdeKeyring.KeyProviderInfoFile.GetKeyProviderByID | src/catalog/tde_keyring.c:194-204 | Returns `ProviderById` of the file. |
| KeyringFile.FileReadAt | src/keyring/keyring_file.c:59-75 | At a record boundary a read returns a whole record exactly inside the records, nothing exactly at or past the end, and a short count exactly on a trailing partial record. |
| KeyringFile.FirstMatch | src/keyring/keyring_file.c:76-80 | Returns the index of the first record whose name matches case-insensitively within the name field, or None exactly when none matches. |
| KeyringFile.AppendBytes | src/keyring/keyring_file.c:117-118 | Appending keeps the file well formed: whole records, then fewer than a record's bytes. |
| KeyringFile.GetFindsFirstCaseInsensitiveMatch | src/keyring/keyring_file.c:76-80 | A found key is a stored record that matches the name case-insensitively, and no earlier record matches. |
| KeyringFile.GetNullResults | src/keyring/keyring_file.c:46-75 | An open failure gives RESOURCE_NOT_ACCESSABLE. With no match, a clean end of file gives NULL with the code untouched, and a trailing partial record gives DATA_CORRUPTED. |
| KeyringFile.SetRejectsExistingName | src/keyring/keyring_file.c:98-106 | An existing name is refused with INVALID_OPERATION, and the file is unchanged. |
| KeyringFile.SetAppendsOneRecord | src/keyring/keyring_file.c:116-129 | A successful store on an intact file appends exactly the key after the unchanged earlier records. |
| KeyringFile.SetIoFailures | src/keyring/keyring_file.c:108-127 | An open failure or a short write returns RESOURCE_NOT_ACCESSABLE. |
| KeyringFile.NameMatchesItself | src/keyring/keyring_file.c:76 | A record matches its own name. |
| KeyringFile.SetThenGet | src/keyring/keyring_file.c:89-130 | Round trip: after a successful store on an intact file, looking the name up returns the stored key. |
| KeyringFile.AsWrittenLoopsOnFirstMismatch | src/keyring/keyring_file.c:56-81 | As written, a file whose first record does not match keeps the read loop running for any number of passes. |
| KeyringFile.AsWrittenMissesSecondRecord | src/keyring/keyring_file.c:59 | Concrete case: "beta", stored second, is found by the intended scan, but the loop as written never returns. |
| KeyringFile.AsWrittenStore | src/keyring/keyring_file.c:117-118 | A write at offset 0 keeps the file well formed. |
| KeyringFile.AsWrittenStoreOverwritesFirstKey | src/keyring/keyring_file.c:118 | Concrete case: a write at offset 0 of "beta" next to "alpha" loses "alpha", while the intended append keeps it. The overwrite stays latent until line 59 is corrected, because the store's own lookup of "beta" loops on "alpha" first. |
| KeyringFile.FileKeyringStore.GetKeyByName | src/keyring/keyring_file.c:40-86 | The read loop returns `GetKeyByNameSpec` of the file. |
| KeyringFile.FileKeyringStore.SetKeyByName | src/keyring/keyring_file.c:89-130 | The result code and the new file are `SetKeyByNameSpec` of the old file. |
| TdePrincipalKey.VersionedNameInjective | src/catalog/tde_principal_key.c:513-514 | Two versions of one name never share a versioned name. |
| TdePrincipalKey.ProbeFrom | src/catalog/tde_principal_key.c:516-557 | A probe never reports a version below its base. |
| TdePrincipalKey.LoadLatestVersionedKeyName | src/catalog/tde_principal_key.c:501-559 | The loop returns `LoadLatest`. On a non-error return, the caller's info holds the reported version and its versioned name. |
| TdePrincipalKey.ProbeStopsAtFirstGap | src/catalog/tde_principal_key.c:516-547 | With versions present up to a first gap w, the probe stops at w: NULL at w with ensure_new_key, else the key at w-1 above the base. This assumes the codes left by the hits and by the miss at w are SUCCESS or RESOURCE_NOT_AVAILABLE. |
| TdePrincipalKey.LoadLatestFirstGap | src/catalog/tde_principal_key.c:526-543 | With ensure_new_key: NULL at the first free version. Without it: the key at the highest consecutive version, or NULL at the base when the base is absent. |
| TdePrincipalKey.ProbeFindsGap | src/catalog/tde_principal_key.c:516-547 | Conversely, a probe that ends without an error found a gap g: every version from base to g-1 is held and g is not, with the result for that g. |
| TdePrincipalKey.LoadLatestEnsureNewFindsFirstFree | src/catalog/tde_principal_key.c:513-547 | With ensure_new_key, a non-error result is NULL at a version v ≥ base. v is not held, and every version from base to v-1 is. |
| TdePrincipalKey.ProbeExhausted | src/catalog/tde_principal_key.c:552-556 | When every version up to the ceiling is held, the probe ends with the too-many-versions ERROR. |
| TdePrincipalKey.LoadLatestFailingProvider | src/catalog/tde_principal_key.c:520-525 | A provider code other than SUCCESS or RESOURCE_NOT_AVAILABLE is fatal. |
| TdePrincipalKey.HitWithUnacceptableCodeIsFatal | src/catalog/tde_principal_key.c:518-525 | When a hit leaves a code other than SUCCESS or RESOURCE_NOT_AVAILABLE, finding the base version is already FATAL: the code is tested before the key. |
| TdePrincipalKey.PushAndClear | src/catalog/tde_principal_key.c:637-697 | A push never overwrites an existing entry and inserts when absent. A clear deletes exactly the given database's entry. Clear-then-push installs the key. |
| TdePrincipalKey.PushKeepsValid | src/catalog/tde_principal_key.c:637-647 | A push keeps every cache entry under its own key's database. |
| TdePrincipalKey.LoadedKeyFor | src/catalog/tde_principal_key.c:266-300 | A key loaded on the slow path carries exactly the stored info of the scope. |
| TdePrincipalKey.GetReentrantReturnsNull | src/catalog/tde_principal_key.c:221-226 | Re-entered while the counter is above 0, the call returns NULL and changes nothing. |
| TdePrincipalKey.GetCacheHit | src/catalog/tde_principal_key.c:231-242 | Outside the global tablespace a cache hit is returned without touching the store or a provider: the answer is the same whatever they hold. |
| TdePrincipalKey.GetGlobalBypassesCache | src/catalog/tde_principal_key.c:230-307 | For the global tablespace the cache is never written, and the answer does not depend on it. |
| TdePrincipalKey.GetMissLoadsAndCaches | src/catalog/tde_principal_key.c:265-307 | A miss that finds the key returns the stored info. Its bytes are exactly those the provider registered under the info's keyring id holds under the info's versioned name. Exactly that key is cached. |
| TdePrincipalKey.GetNullWithoutInfo | src/catalog/tde_principal_key.c:266-274 | Without stored info for the scope, a miss returns NULL and changes nothing. |
| TdePrincipalKey.GetNullWhenProviderOrKeyMissing | src/catalog/tde_principal_key.c:276-294 | With stored info whose provider is no longer registered, or whose key that provider does not hold, a miss returns NULL and the cache is not written. |
| TdePrincipalKey.GetKeepsValid | src/catalog/tde_principal_key.c:209-318 | GetPrincipalKey preserves the state invariant. |
| TdePrincipalKey.LoadOrGenerate | src/catalog/tde_principal_key.c:364-379 | The key's info is the starting info at a version no lower than the start, with that version's versioned name. Only the provider key stores may change. |
| TdePrincipalKey.LoadLatestKeyIsHeld | src/catalog/tde_principal_key.c:536-543 | A key the probe returns is the one the provider holds under the versioned name of the version the probe reports. |
| TdePrincipalKey.LoadOrGenerateUsesProbe | src/catalog/tde_principal_key.c:363-367 | The key gets the version `LoadLatest` reports. A probed key is used as it is and nothing changes. Otherwise the versioned name was free, the bytes are the generated ones, and exactly that provider's store gains them under that name. |
| TdePrincipalKey.LoadOrGenerateHoldsKey | src/catalog/tde_principal_key.c:363-367 | Afterwards the provider holds the key's bytes under the key's versioned name, and every key any provider held before is still held with the same bytes. |
| TdePrincipalKey.SetRejectsDuplicate | src/catalog/tde_principal_key.c:345-405 | A database with a key in the cache or the store is refused with DUPLICATE_OBJECT, and nothing changes. |
| TdePrincipalKey.SetCreatesSavesAndCaches | src/catalog/tde_principal_key.c:352-389 | The new key has the scope, the keyring id, the clock time and the name, at a version ≥ the default. It is saved for the scope and cached for the database. |
| TdePrincipalKey.SetFreshNameUsesDefaultVersion | src/catalog/tde_principal_key.c:359-367 | When "name_<default>" is free, the key gets the default version and the generated bytes, and the provider holds them under that name. |
| TdePrincipalKey.SetKeepsValid | src/catalog/tde_principal_key.c:331-408 | Setting a key preserves the state invariant. |
| TdePrincipalKey.RotationTargetChoice | src/catalog/tde_principal_key.c:435-451 | With no new name, the version goes up by one and the name and provider stay. With a new name, the name is replaced and the version reset to the default. The provider changes only when a provider name is also given, and then to that provider's id. The scope and creation time stay. |
| TdePrincipalKey.RotationIgnoresProviderWithoutName | src/catalog/tde_principal_key.c:437-446 | A provider name given without a new key name has no effect. |
| TdePrincipalKey.RotateWithoutNameAdvancesVersion | src/catalog/tde_principal_key.c:437-471 | A rotation without a new name yields a strictly higher version of the same name, on the same keyring and scope. |
| TdePrincipalKey.RotateReplacesCachedKey | src/catalog/tde_principal_key.c:472-478 | After a successful rotation the store holds the new info. Outside the global tablespace the cache holds the new key; for the global tablespace the cache is untouched. A rotation that is not performed changes neither. |
| TdePrincipalKey.RotatedKeyFacts | src/catalog/tde_principal_key.c:435-471 | Building the rotated key keeps the scope and changes nothing but the provider key stores. |
| TdePrincipalKey.RotatedKeyHeldByProvider | src/catalog/tde_principal_key.c:453-466 | After a rotation the new key's provider, found by its keyring id in the scope's registry, holds the new bytes under the new versioned name. Every key held before is still held, so earlier versions stay resolvable. |
| TdePrincipalKey.RotateKeepsValid | src/catalog/tde_principal_key.c:422-479 | Rotation preserves the state invariant. |
| TdePrincipalKey.ProviderIdStoreOverridesCache | src/catalog/tde_principal_key.c:577-590 | As written, stored info wins over the cache, the cache answers only without stored info, and otherwise the result is InvalidOid. |
| TdePrincipalKey.ProviderIdAgreesWhenConsistent | src/catalog/tde_principal_key.c:577-590 | As written, the result equals the cache-first reading whenever the cache and the store agree about the keyring. |
| TdePrincipalKey.CreationTimestampRoundTrip | src/catalog/tde_principal_key.c:851-852 | With tv_usec in range, the TimestampTz gives back both the seconds and the microseconds. |
| TdePrincipalKey.CreationTimestampMonotone | src/catalog/tde_principal_key.c:851-852 | Later timevals give later timestamps. |
| TdePrincipalKey.AsWrittenErrorDisablesLookup | src/catalog/tde_principal_key.c:223-276 | As written, after one call raises, the counter stays at 1 and every later call returns NULL. |
| TdePrincipalKey.CorruptRegistryRaises | src/catalog/tde_principal_key.c:276 | Concrete case: a registry ending in a 7-byte partial record makes the lookup raise "corrupted". |
| TdePrincipalKey.PrincipalKeyManager.PushPrincipalKeyToCache | src/catalog/tde_principal_key.c:637-647 | The cache becomes `Push` of the old cache. |
| TdePrincipalKey.PrincipalKeyManager.ClearPrincipalKeyCache | src/catalog/tde_principal_key.c:686-697 | The cache becomes `Clear` of the old cache. |
| TdePrincipalKey.PrincipalKeyManager.GetPrincipalKey | src/catalog/tde_principal_key.c:209-318 | The result and the new state are `GetPrincipalKeySpec`, and the counter is back at its value on entry. |
| TdePrincipalKey.PrincipalKeyManager.LoadOrGenerateKey | src/catalog/tde_principal_key.c:364-367 | The result and the key stores are those of `LoadOrGenerate`. |
| TdePrincipalKey.PrincipalKeyManager.LoadPrincipalKey | src/catalog/tde_principal_key.c:265-293 | Without stored info the result is NULL. A failing provider lookup raises the lookup's error. An unregistered provider, or a provider that does not hold the versioned name, gives NULL. Otherwise the result is the stored info with the bytes the provider holds under that name. |
| TdePrincipalKey.PrincipalKeyManager.BuildRotatedKey | src/catalog/tde_principal_key.c:434-466 | On success, the new key and the key stores afterwards are those of `RotatedKey`. On an ERROR the key stores are unchanged. |
| TdePrincipalKey.PrincipalKeyManager.SetPrincipalKeyWithKeyring | src/catalog/tde_principal_key.c:331-408 | The result and the new state are `SetPrincipalKeyWithKeyringSpec`. |
| TdePrincipalKey.PrincipalKeyManager.SetPrincipalKey | src/catalog/tde_principal_key.c:411-419 | The result and the new state are `SetPrincipalKeySpec`, with the keyring looked up by name in the scope's registry. |
| TdePrincipalKey.PrincipalKeyManager.RotatePrincipalKey | src/catalog/tde_principal_key.c:422-479 | The result and the new state are `RotatePrincipalKeySpec`. |
| TdePrincipalKey.PrincipalKeyManager.GetPrincipalKeyProviderId | src/catalog/tde_principal_key.c:565-596 | Returns `ProviderIdAsWritten` of the state and changes nothing. |
| TdeGlobalCatalog.KeyTypeIndex | src/catalog/tde_global_catalog.c:38-44 | Every internal key type indexes a slot below TDE_INTERNAL_KEYS_COUNT. |
| TdeGlobalCatalog.InitDefaultKeyringKeepsExisting | src/catalog/tde_global_catalog.c:122 | With providers already registered, nothing is registered and the registry is unchanged. |
| TdeGlobalCatalog.InitDefaultKeyringRegistersDefault | src/catalog/tde_global_catalog.c:120-146 | On a scope without providers, a successful registration leaves exactly one provider. It is a FILE keyring named `default_global_tablespace_keyring` with the default path, and the lookup by that name returns it. |
| TdeGlobalCatalog.InitDefaultKeyringIdempotent | src/catalog/tde_global_catalog.c:120-146 | Running the registration again after it succeeded registers nothing more. |
| TdeGlobalCatalog.CreatePrincipalKeyAsWritten | src/catalog/tde_global_catalog.c:194-221 | As written, the versioned name used is whatever the allocation held. |
| TdeGlobalCatalog.AsWrittenKeyStoredUnderUninitialisedName | src/catalog/tde_global_catalog.c:209 | Concrete case: with an empty name left in the allocation, the key is stored under "". The provider then holds nothing under "tde-global-catalog-key_0". |
| TdeGlobalCatalog.CreatePrincipalKeyFields | src/catalog/tde_global_catalog.c:194-221 | The key's info has the given db, spc and clock time, the default version and the keyring's id, and its bytes are the generated ones. The provider returns them under the key's versioned name. Generation fails with an ERROR exactly when the provider refuses the store. |
| TdeGlobalCatalog.NewXlogKeyWrapsCachedKey | src/catalog/tde_global_catalog.c:164-181 | A RAND_bytes failure is fatal. Otherwise the map entry holds the cached plain key wrapped by the principal key, together with the principal key's info, and the plain key holds the random bytes. |
| TdeGlobalCatalog.GlobalCatalog.CacheInternalKey | src/catalog/tde_global_catalog.c:90-99 | The slot array is allocated only on the first call. Then exactly the slot of the given type is overwritten, and every other slot is unchanged. |
| TdeGlobalCatalog.GlobalCatalog.GetGlCatInternalKey | src/catalog/tde_global_catalog.c:103-117 | XLOG_TDE_OID gives the WAL slot; any other oid raises "unknown internal key". |
| TdeGlobalCatalog.GlobalCatalog.InitDefaultKeyring | src/catalog/tde_global_catalog.c:120-146 | The result and the registry file are `InitDefaultKeyringSpec` of the old file. |
| TdeGlobalCatalog.GlobalCatalog.InitGlCatalogKeys | src/catalog/tde_global_catalog.c:152-183 | On success, the key is the one create_principal_key makes with the default provider. The map entry written is the encrypted WAL key, and the WAL slot holds the same key in the clear. On every path the key stores are `StoresAfterDefaultKey`: the default provider's store gains the new key exactly when the lookup and the creation succeed, including when RAND_bytes fails afterwards, and nothing changes otherwise. On failure, neither the map file nor the slot array nor its contents change. |
| TdeGlobalCatalog.GlobalCatalog.TDEGlCatKeyInit | src/catalog/tde_global_catalog.c:59-79 | The registry file becomes the one `InitDefaultKeyringSpec` gives for the old file. On success the WAL slot is filled with the key the map file holds. With no map file and a successful registration, the key stores are `StoresAfterDefaultKey` over the new registry, and on success the map entry's key is wrapped by the principal key created with the default provider and holds the random bytes. With a map file, or when registration fails, the key stores are unchanged, and a map file is left as it was. |

## Left out

- Locks, shared memory, DSA and the dshash table. Each operation is treated as atomic. A key another backend caches between the two cache checks of `GetPrincipalKey` is the parameter `racer`.
- Raw file I/O (`BasicOpenFile`, `pg_pread`, `pg_pwrite`, `lseek`, `pg_fsync`, `PathNameOpenFile`) and path building. A file is a sequence of whole records plus a count of trailing bytes; open, write and fsync outcomes are parameters.
- WAL insertion and standby replay (`XLogInsert`, `xl_tde_perform_rotate_key`): the host's log service.
- JSON option parsing (`extract_json_option_value`). A record's options are the map of members the parser would find.
- `pg_tde_get_principal_key` and `save_principal_key_info` are the `store` map, read and written directly.
- `pg_tde_perform_rotate_key` is the parameter `rotateOk`; on success the store takes the new key's info.
- `pg_tde_write_key_map_entry`, `pg_tde_get_key_from_file` and `tde_encrypt_rel_key`/`tde_decrypt_rel_key` are symbolic. An encrypted key records its wrapping principal key and the plain key, and reading the map file back yields that plain key.
- `RAND_bytes`, `gettimeofday` and the provider's random key generation are parameters (`randOk`/`randBytes`, `now`, `newKey`/`storeOk`).
- The Vault provider and the dispatch in `keyring_api.c`: every provider is an abstract key store (`KeyringApi.KeyStore`).
- `save_new_key_provider_info`, called by `init_default_keyring`, is not in the `tde_keyring.c` modelled here. The default provider is saved with `save_key_provider`'s logic in the global scope's registry.
- Scope of the registry: the modelled `tde_keyring.c` declares `GetAllKeyringProviders(void)`, `GetKeyProviderByName(const char *)` and `GetKeyProviderByID(int)` (src/catalog/tde_keyring.c:168, 174, 194), and always reads the file of the current database (`MyDatabaseId`, `MyDatabaseTableSpace`, lines 332 and 404). Their callers pass a (database, tablespace) pair as well (src/catalog/tde_principal_key.c:276, 414, 448, 455; src/catalog/tde_global_catalog.c:35-36, 122). The model follows the callers' three-argument form: the pair chooses which registry file is read (`RegistryOf` in `TdePrincipalKey`, the `registry` field of `GlobalCatalog` for the global scope). Reading the current database's file whatever the caller passes is not modelled.
- SQL-callable wrappers and tuple building. Only the timestamp conversion of `pg_tde_get_key_info` is modelled.
- Case folding and byte length: `strcasecmp` and `strncasecmp` are modelled as ASCII folding over characters, not over bytes under the backend's LC_CTYPE. `NameMatches`' bound of 256 counts characters where the source counts bytes, so two names of 200 two-byte characters that differ only at character 150 match in the source but not in the model.
- Fixed-width truncation: `strncpy` into 128- and 256-byte name fields, and `snprintf` into the versioned-name buffer. Names are unbounded strings; only the `strncasecmp` bound of `get_key_by_name` is modelled.
- Integer widths: the 32-bit `int` version counter and provider ids, and the 64-bit timestamp, are unbounded; their overflow is not modelled.
- `RotatePrincipalKey`: a NULL keyring from `GetKeyProviderByID`, which the source passes on to an `Assert` and then dereferences, is modelled as the error `KeyringMissing`.
- `TdePrincipalKey.PrincipalKeyManager.GetPrincipalKey` restores the recursion counter on the ERROR exit too. This is the corrected counter; the source's behaviour is `RecursionAfterAsWritten` (see "## Findings").
- `TdeGlobalCatalog.GlobalCatalog.GetGlCatInternalKey` requires the slot array to be allocated, as the source's `Assert` does.
- `TdeGlobalCatalog.GlobalCatalog.TDEGlCatKeyInit`: the key read back from an existing map file is not shown to match a principal key the provider still holds, because decryption is symbolic.
- `KeyringFile.FileKeyringStore.GetKeyByName` and `KeyringFile.FileKeyringStore.SetKeyByName` model the intended read and write positions, not offset 0. The as-written behaviour is given by `AsWrittenGetKeyByName` and `AsWrittenStore`.
- Memory management (`palloc`, `pfree`, `list_free`) and the `debug_print_kerying` output.

## Findings

| source | as written | input that shows it | evidently intended | confidence | as-written member | corrected member |
|---|---|---|---|---|---|---|
| src/keyring/keyring_file.c:59 | Every `FileRead` in the lookup loop starts at offset 0, so the loop re-reads the first record forever when that record does not match. | A keyring file holding "alpha" then "beta"; look up "beta". | Read the records one after another and stop at the first match or at the end of the file. | not executed | KeyringFile.AsWrittenMissesSecondRecord | KeyringFile.SetThenGet |
| src/keyring/keyring_file.c:117-118 | The `lseek` to the end is ignored because `FileWrite` is given offset 0, so a store into a file of whole records overwrites the first record. The defect is latent as long as line 59 stands: on such a file the lookup at line 99 loops before the write is reached. | Once line 59 reads record after record: a keyring file holding "alpha"; store "beta"; look up "alpha". | Append the new record at the end of the file. | not executed | KeyringFile.AsWrittenStoreOverwritesFirstKey | KeyringFile.SetAppendsOneRecord |
| src/catalog/tde_principal_key.c:223-276 | The static counter is incremented before the provider lookup. An ERROR raised by that lookup (a corrupted registry file) unwinds past every decrement, so every later `GetPrincipalKey` in the backend returns NULL. | Scope (5, 1663) whose info names keyring 1 and whose registry file ends in a 7-byte partial record; then any second call. | Restore the counter on every exit, including errors. | not executed | TdePrincipalKey.AsWrittenErrorDisablesLookup | TdePrincipalKey.PrincipalKeyManager.GetPrincipalKey |
| src/catalog/tde_global_catalog.c:209 | `keyId.versioned_name` of the freshly allocated key is passed to the provider without being filled in, so the key is stored under whatever the allocation holds. | An allocation holding the empty string: the key is stored under "", and nothing under "tde-global-catalog-key_0". | Print `name_<DEFAULT_PRINCIPAL_KEY_VERSION>` into `versioned_name` first, as `load_latest_versioned_key_name` does. | not executed | TdeGlobalCatalog.AsWrittenKeyStoredUnderUninitialisedName | TdeGlobalCatalog.CreatePrincipalKeyFields |
