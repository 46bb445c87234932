/**
 * The provider interface that the key-management code calls through
 * (keyring_api.c is not part of this model). A provider's key store is an
 * abstract map from key names to key bytes; a provider that is unreachable
 * answers every call with its failure code.
 */
module KeyringApi {
  import opened Wrappers

  type byte = bv8
  type KeyData = seq<byte>

  /** KeyringReturnCodes */
  datatype KeyringReturnCode =
    | KeyringCodeSuccess
    | KeyringCodeInvalidProvider
    | KeyringCodeResourceNotAvailable
    | KeyringCodeResourceNotAccessable
    | KeyringCodeInvalidOperation
    | KeyringCodeInvalidResponse
    | KeyringCodeInvalidKeySize
    | KeyringCodeDataCorrupted

  /**
   * The state of one provider's key store.
   * `failure` is Some(code) when every call fails with that code (an
   * unreachable vault, an unreadable file). `hitCode` and `notFoundCode` are
   * the codes the caller sees after a call that finds the name and after one
   * that does not. The vault provider reports SUCCESS and
   * RESOURCE_NOT_AVAILABLE. The file provider assigns the code on neither
   * path (keyring_file.c:60-64 and 76-80), so the caller's variable keeps
   * whatever it held before; the two fields stand for that value.
   */
  datatype KeyStore = KeyStore(keys: map<string, KeyData>, failure: Option<KeyringReturnCode>,
                               hitCode: KeyringReturnCode, notFoundCode: KeyringReturnCode)

  /** KeyringGetKey(keyring, name, false, &code): the key, or NULL, and the return code. */
  function KeyringGetKey(ks: KeyStore, name: string): (r: (Option<KeyData>, KeyringReturnCode))
    ensures r.0.Some? <==> ks.failure.None? && name in ks.keys
    ensures r.0.Some? ==> r.0.value == ks.keys[name] && r.1 == ks.hitCode
    ensures ks.failure.None? && r.0.None? ==> r.1 == ks.notFoundCode
    ensures ks.failure.Some? ==> r.1 == ks.failure.value
  {
    if ks.failure.Some? then (None, ks.failure.value)
    else if name in ks.keys then (Some(ks.keys[name]), ks.hitCode)
    else (None, ks.notFoundCode)
  }

  /** A name is present when the provider answers it with a key. */
  predicate HasKey(ks: KeyStore, name: string) {
    ks.failure.None? && name in ks.keys
  }

  /**
   * KeyringGenerateNewKeyAndStore(keyring, name, len, false): `newKey` stands
   * for the random bytes generated; the store is refused when the provider
   * is unreachable, when the name is already taken, or when `storeOk` is false
   * (the provider's own write failed), and the result is then NULL.
   */
  function KeyringGenerateNewKeyAndStore(ks: KeyStore, name: string, newKey: KeyData, storeOk: bool): (r: (Option<KeyData>, KeyStore))
    ensures r.0.Some? <==> storeOk && ks.failure.None? && name !in ks.keys
    ensures r.0.Some? ==> r.0.value == newKey && r.1 == ks.(keys := ks.keys[name := newKey])
    ensures r.0.None? ==> r.1 == ks
  {
    if !storeOk || ks.failure.Some? || name in ks.keys then (None, ks)
    else (Some(newKey), ks.(keys := ks.keys[name := newKey]))
  }

  /** Storing a new key never removes or changes a key already held. */
  lemma GenerateKeepsExistingKeys(ks: KeyStore, name: string, newKey: KeyData, storeOk: bool, other: string)
    requires other in ks.keys
    ensures var ks' := KeyringGenerateNewKeyAndStore(ks, name, newKey, storeOk).1;
      other in ks'.keys && ks'.keys[other] == ks.keys[other]
  {
  }
}
