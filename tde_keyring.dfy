/**
 * The keyring-provider registry of one (database, tablespace) scope: an
 * append-only file of fixed-size provider records (src/catalog/tde_keyring.c).
 *
 * The file is a sequence of whole records followed by `tailBytes` bytes of an
 * incomplete record; a read at a record boundary therefore returns a whole
 * record, nothing (end of file) or a short count (a corrupted file).
 * The option text of a record is represented by the JSON members it holds,
 * as the option parser would find them.
 */
module TdeKeyring {
  import opened Wrappers
  import opened CString

  datatype ProviderType = UnknownKeyProvider | FileKeyProvider | VaultV2KeyProvider

  /** The type names accepted by get_keyring_provider_from_typename (declared in catalog/tde_keyring.h). */
  const FILE_KEYRING_TYPE: string := "file"
  const VAULTV2_KEYRING_TYPE: string := "vault-v2"

  /** Option names looked up in a record's options. */
  const FILE_KEYRING_PATH_KEY: string := "path"
  const VAULTV2_KEYRING_TOKEN_KEY: string := "token"
  const VAULTV2_KEYRING_URL_KEY: string := "url"
  const VAULTV2_KEYRING_MOUNT_PATH_KEY: string := "mountPath"
  const VAULTV2_KEYRING_CA_PATH_KEY: string := "caPath"

  /**
   * sizeof(KeyringProvideRecord): an int id, a 128-byte name, 1024 bytes of
   * options and the type tag. The header that fixes the layout is not part of
   * this model; the proofs use only that the size is positive.
   */
  const KEYRING_PROVIDER_RECORD_SIZE: nat := 1160

  /** The members of a record's JSON option text. */
  type Options = map<string, string>

  /** KeyringProvideRecord */
  datatype ProviderRecord = ProviderRecord(providerId: int, providerName: string, providerType: ProviderType, options: Options)

  /** The type-specific part of FileKeyring / VaultV2Keyring. */
  datatype KeyringConfig =
    | FileKeyring(fileName: string)
    | VaultV2Keyring(vaultToken: string, vaultUrl: string, vaultMountPath: string, vaultCaPath: string)

  /** GenericKeyring together with the variant it heads. */
  datatype GenericKeyring = GenericKeyring(keyId: int, providerName: string, providerType: ProviderType, config: KeyringConfig)

  /** get_keyring_provider_from_typename; None stands for a NULL argument. */
  function GetKeyringProviderFromTypename(providerType: Option<string>): (r: ProviderType)
    ensures r == FileKeyProvider <==> providerType == Some(FILE_KEYRING_TYPE)
    ensures r == VaultV2KeyProvider <==> providerType == Some(VAULTV2_KEYRING_TYPE)
    ensures r == UnknownKeyProvider <==>
      (providerType.None? || (providerType.value != FILE_KEYRING_TYPE && providerType.value != VAULTV2_KEYRING_TYPE))
  {
    if providerType.None? then UnknownKeyProvider
    else if providerType.value == FILE_KEYRING_TYPE then FileKeyProvider
    else if providerType.value == VAULTV2_KEYRING_TYPE then VaultV2KeyProvider
    else UnknownKeyProvider
  }

  /** load_file_keyring_provider_options: NULL unless the options name a path. */
  function LoadFileKeyringProviderOptions(options: Options): (r: Option<KeyringConfig>)
    ensures r.Some? <==> FILE_KEYRING_PATH_KEY in options
    ensures r.Some? ==> r.value.FileKeyring? && r.value.fileName == options[FILE_KEYRING_PATH_KEY]
  {
    if FILE_KEYRING_PATH_KEY in options then Some(FileKeyring(options[FILE_KEYRING_PATH_KEY])) else None
  }

  /** load_vaultV2_keyring_provider_options: token, url and mount path are required, the CA path defaults to "". */
  function LoadVaultV2KeyringProviderOptions(options: Options): (r: Option<KeyringConfig>)
    ensures r.Some? <==>
      VAULTV2_KEYRING_TOKEN_KEY in options && VAULTV2_KEYRING_URL_KEY in options && VAULTV2_KEYRING_MOUNT_PATH_KEY in options
    ensures r.Some? ==> r.value.VaultV2Keyring?
    ensures r.Some? ==> r.value.vaultToken == options[VAULTV2_KEYRING_TOKEN_KEY]
    ensures r.Some? ==> r.value.vaultUrl == options[VAULTV2_KEYRING_URL_KEY]
    ensures r.Some? ==> r.value.vaultMountPath == options[VAULTV2_KEYRING_MOUNT_PATH_KEY]
    ensures r.Some? ==> r.value.vaultCaPath == (if VAULTV2_KEYRING_CA_PATH_KEY in options then options[VAULTV2_KEYRING_CA_PATH_KEY] else "")
  {
    if VAULTV2_KEYRING_TOKEN_KEY in options && VAULTV2_KEYRING_URL_KEY in options && VAULTV2_KEYRING_MOUNT_PATH_KEY in options then
      Some(VaultV2Keyring(
        options[VAULTV2_KEYRING_TOKEN_KEY],
        options[VAULTV2_KEYRING_URL_KEY],
        options[VAULTV2_KEYRING_MOUNT_PATH_KEY],
        if VAULTV2_KEYRING_CA_PATH_KEY in options then options[VAULTV2_KEYRING_CA_PATH_KEY] else ""))
    else None
  }

  /** load_keyring_provider_options: dispatch on the type; an unknown type loads nothing. */
  function LoadKeyringProviderOptions(providerType: ProviderType, options: Options): (r: Option<KeyringConfig>)
    ensures providerType == UnknownKeyProvider ==> r.None?
    ensures providerType == FileKeyProvider ==> r == LoadFileKeyringProviderOptions(options)
    ensures providerType == VaultV2KeyProvider ==> r == LoadVaultV2KeyringProviderOptions(options)
  {
    match providerType
    case FileKeyProvider => LoadFileKeyringProviderOptions(options)
    case VaultV2KeyProvider => LoadVaultV2KeyringProviderOptions(options)
    case UnknownKeyProvider => None
  }

  /** load_keyring_provider_from_record: the id, name and type come from the record. */
  function LoadKeyringProviderFromRecord(rec: ProviderRecord): (r: Option<GenericKeyring>)
    ensures r.Some? <==> LoadKeyringProviderOptions(rec.providerType, rec.options).Some?
    ensures r.Some? ==> r.value.keyId == rec.providerId && r.value.providerName == rec.providerName
    ensures r.Some? ==> r.value.providerType == rec.providerType && rec.providerType != UnknownKeyProvider
  {
    match LoadKeyringProviderOptions(rec.providerType, rec.options)
    case None => None
    case Some(config) => Some(GenericKeyring(rec.providerId, rec.providerName, rec.providerType, config))
  }

  predicate Loadable(rec: ProviderRecord) {
    LoadKeyringProviderFromRecord(rec).Some?
  }

  // ------------------------------------------------------------------
  // The provider info file

  datatype ProviderFile = ProviderFile(records: seq<ProviderRecord>, tailBytes: nat)

  /** The bytes after the last whole record are fewer than a record. */
  predicate WellFormedFile(f: ProviderFile) {
    f.tailBytes < KEYRING_PROVIDER_RECORD_SIZE
  }

  function FileSize(f: ProviderFile): nat {
    |f.records| * KEYRING_PROVIDER_RECORD_SIZE + f.tailBytes
  }

  /** What pg_pread returns for a whole-record request at byte offset pos. */
  function BytesReadAt(f: ProviderFile, pos: nat): (n: nat)
    ensures n <= KEYRING_PROVIDER_RECORD_SIZE
    ensures n == 0 <==> pos >= FileSize(f)
  {
    if pos >= FileSize(f) then 0
    else if FileSize(f) - pos < KEYRING_PROVIDER_RECORD_SIZE then FileSize(f) - pos
    else KEYRING_PROVIDER_RECORD_SIZE
  }

  datatype FetchResult =
    | Fetched(record: ProviderRecord, nextPos: nat)
    | EndOfData
    | Corrupt(bytesRead: nat)

  /** The byte offset of record i is a record boundary that names record i. */
  lemma ProviderRecordBoundary(i: nat)
    ensures (i * KEYRING_PROVIDER_RECORD_SIZE) % KEYRING_PROVIDER_RECORD_SIZE == 0
    ensures (i * KEYRING_PROVIDER_RECORD_SIZE) / KEYRING_PROVIDER_RECORD_SIZE == i
  {
  }

  /**
   * fetch_next_key_provider at a record boundary: a whole record advances the
   * cursor by exactly one record size, no bytes means the end of the data,
   * and any other count is reported as a corrupted file.
   */
  function FetchNextKeyProvider(f: ProviderFile, pos: nat): (r: FetchResult)
    requires WellFormedFile(f)
    requires pos % KEYRING_PROVIDER_RECORD_SIZE == 0
    ensures r.Fetched? <==> pos / KEYRING_PROVIDER_RECORD_SIZE < |f.records|
    ensures r.Fetched? ==> r.record == f.records[pos / KEYRING_PROVIDER_RECORD_SIZE]
    ensures r.Fetched? ==> r.nextPos == pos + KEYRING_PROVIDER_RECORD_SIZE
    ensures r.EndOfData? <==> pos >= FileSize(f)
    ensures r.Corrupt? <==> pos / KEYRING_PROVIDER_RECORD_SIZE == |f.records| && f.tailBytes > 0
    ensures r.Corrupt? ==> r.bytesRead == f.tailBytes
  {
    var n := BytesReadAt(f, pos);
    if n == 0 then EndOfData
    else if n != KEYRING_PROVIDER_RECORD_SIZE then Corrupt(n)
    else Fetched(f.records[pos / KEYRING_PROVIDER_RECORD_SIZE], pos + KEYRING_PROVIDER_RECORD_SIZE)
  }

  // ------------------------------------------------------------------
  // Scanning

  /** ProviderScanType with its scan key. */
  datatype ScanKey = ScanByName(name: string) | ScanById(id: int) | ScanByType(providerType: ProviderType) | ScanAll

  /** The per-record filter of scan_key_provider_file; names compare with strcasecmp. */
  predicate Matches(rec: ProviderRecord, key: ScanKey) {
    match key
    case ScanByName(name) => StrCaseEq(rec.providerName, name)
    case ScanById(id) => rec.providerId == id
    case ScanByType(t) => rec.providerType == t
    case ScanAll => true
  }

  /** What one record contributes to a scan: its keyring when it matches and its options load. */
  function Picked(rec: ProviderRecord, key: ScanKey): seq<GenericKeyring> {
    if Matches(rec, key) && Loadable(rec) then [LoadKeyringProviderFromRecord(rec).value] else []
  }

  /** The scan's result list over a sequence of whole records, in file order. */
  function Selected(recs: seq<ProviderRecord>, key: ScanKey): seq<GenericKeyring>
    decreases |recs|
  {
    if recs == [] then [] else Selected(recs[..|recs| - 1], key) + Picked(recs[|recs| - 1], key)
  }

  datatype RegistryError =
    | FileOpenFailed
    | FileCorrupted(bytesRead: nat)
    | DuplicateProvider(name: string)
    | FileWriteFailed(bytesWritten: int)
    | FileSyncFailed
    | ProviderDoesNotExist(name: string)

  datatype Result<T> = Ok(value: T) | Err(error: RegistryError)

  /**
   * scan_key_provider_file: a file that cannot be opened gives the empty list;
   * otherwise every whole record is read, and a trailing partial record
   * raises the corruption error after them.
   */
  function ScanResult(file: Option<ProviderFile>, key: ScanKey): Result<seq<GenericKeyring>> {
    if file.None? then Ok([])
    else if file.value.tailBytes > 0 then Err(FileCorrupted(file.value.tailBytes))
    else Ok(Selected(file.value.records, key))
  }

  lemma {:induction false} SelectedPrefix(recs: seq<ProviderRecord>, i: nat, key: ScanKey)
    requires i < |recs|
    ensures Selected(recs[..i + 1], key) == Selected(recs[..i], key) + Picked(recs[i], key)
  {
    assert recs[..i + 1][..i] == recs[..i];
  }

  /** A keyring is in a scan's result exactly when some matching record loads to it. */
  lemma {:induction false} SelectedMembers(recs: seq<ProviderRecord>, key: ScanKey, k: GenericKeyring)
    ensures k in Selected(recs, key) <==>
      exists j :: 0 <= j < |recs| && Matches(recs[j], key) && LoadKeyringProviderFromRecord(recs[j]) == Some(k)
    decreases |recs|
  {
    if recs != [] {
      var init := recs[..|recs| - 1];
      SelectedMembers(init, key, k);
      if k in Selected(init, key) {
        var j :| 0 <= j < |init| && Matches(init[j], key) && LoadKeyringProviderFromRecord(init[j]) == Some(k);
        assert recs[j] == init[j];
      }
      if exists j :: 0 <= j < |recs| && Matches(recs[j], key) && LoadKeyringProviderFromRecord(recs[j]) == Some(k) {
        var j :| 0 <= j < |recs| && Matches(recs[j], key) && LoadKeyringProviderFromRecord(recs[j]) == Some(k);
        if j < |init| {
          assert init[j] == recs[j];
        }
      }
    }
  }

  /** A scan is empty exactly when no record both matches and loads. */
  lemma {:induction false} SelectedEmpty(recs: seq<ProviderRecord>, key: ScanKey)
    ensures Selected(recs, key) == [] <==> forall j :: 0 <= j < |recs| ==> !(Matches(recs[j], key) && Loadable(recs[j]))
  {
    if Selected(recs, key) != [] {
      SelectedMembers(recs, key, Selected(recs, key)[0]);
    } else {
      forall j | 0 <= j < |recs| ensures !(Matches(recs[j], key) && Loadable(recs[j])) {
        if Matches(recs[j], key) && Loadable(recs[j]) {
          SelectedMembers(recs, key, LoadKeyringProviderFromRecord(recs[j]).value);
        }
      }
    }
  }

  /** The head of a non-empty scan comes from the first record that matches and loads. */
  lemma {:induction false} SelectedHead(recs: seq<ProviderRecord>, key: ScanKey)
    requires Selected(recs, key) != []
    ensures exists j :: (0 <= j < |recs| && Matches(recs[j], key) && LoadKeyringProviderFromRecord(recs[j]) == Some(Selected(recs, key)[0])
                        && forall i :: 0 <= i < j ==> !(Matches(recs[i], key) && Loadable(recs[i])))
    decreases |recs|
  {
    var init := recs[..|recs| - 1];
    if Selected(init, key) != [] {
      SelectedHead(init, key);
      var j :| 0 <= j < |init| && Matches(init[j], key) && LoadKeyringProviderFromRecord(init[j]) == Some(Selected(init, key)[0])
        && forall i :: 0 <= i < j ==> !(Matches(init[i], key) && Loadable(init[i]));
      assert recs[j] == init[j];
      forall i | 0 <= i < j ensures !(Matches(recs[i], key) && Loadable(recs[i])) {
        assert recs[i] == init[i];
      }
    } else {
      SelectedEmpty(init, key);
      var j := |recs| - 1;
      forall i | 0 <= i < j ensures !(Matches(recs[i], key) && Loadable(recs[i])) {
        assert recs[i] == init[i];
      }
    }
  }

  // ------------------------------------------------------------------
  // Saving

  /** The running maximum of save_key_provider's scan, starting from 0. */
  function MaxProviderId(recs: seq<ProviderRecord>): int
    decreases |recs|
  {
    if recs == [] then 0
    else
      var m := MaxProviderId(recs[..|recs| - 1]);
      if m < recs[|recs| - 1].providerId then recs[|recs| - 1].providerId else m
  }

  /** The maximum is at least 0 and at least every stored id. */
  lemma {:induction false} MaxProviderIdBound(recs: seq<ProviderRecord>)
    ensures MaxProviderId(recs) >= 0
    ensures forall j :: 0 <= j < |recs| ==> recs[j].providerId <= MaxProviderId(recs)
    decreases |recs|
  {
    if recs != [] {
      var init := recs[..|recs| - 1];
      MaxProviderIdBound(init);
      forall j | 0 <= j < |recs| ensures recs[j].providerId <= MaxProviderId(recs) {
        if j < |init| {
          assert recs[j] == init[j];
        }
      }
    }
  }

  /** strcmp-equal name already stored. */
  predicate HasExactName(recs: seq<ProviderRecord>, name: string) {
    exists j :: 0 <= j < |recs| && recs[j].providerName == name
  }

  /** What the environment does during a save: open, pg_pwrite's count and fsync. */
  datatype SaveIo = SaveIo(openOk: bool, bytesWritten: int, fsyncOk: bool)

  predicate ValidSaveIo(io: SaveIo) {
    io.bytesWritten <= KEYRING_PROVIDER_RECORD_SIZE
  }

  /** The file as save_key_provider sees it after opening with O_CREAT. */
  function OpenedForWrite(file: Option<ProviderFile>): ProviderFile {
    if file.Some? then file.value else ProviderFile([], 0)
  }

  /**
   * save_key_provider: the returned id (or error) and the file afterwards.
   * A short write leaves its bytes as a partial record; a failed fsync
   * leaves the record written but reports the error.
   */
  function SaveOutcome(file: Option<ProviderFile>, name: string, providerType: ProviderType, options: Options, io: SaveIo)
    : (Result<int>, Option<ProviderFile>)
  {
    if !io.openOk then (Err(FileOpenFailed), file)
    else
      var f := OpenedForWrite(file);
      if HasExactName(f.records, name) then (Err(DuplicateProvider(name)), Some(f))
      else if f.tailBytes > 0 then (Err(FileCorrupted(f.tailBytes)), Some(f))
      else
        var id := MaxProviderId(f.records) + 1;
        var rec := ProviderRecord(id, name, providerType, options);
        if io.bytesWritten != KEYRING_PROVIDER_RECORD_SIZE then
          (Err(FileWriteFailed(io.bytesWritten)), Some(ProviderFile(f.records, if io.bytesWritten > 0 then io.bytesWritten else 0)))
        else if !io.fsyncOk then (Err(FileSyncFailed), Some(ProviderFile(f.records + [rec], 0)))
        else (Ok(id), Some(ProviderFile(f.records + [rec], 0)))
  }

  /** A saved provider's id is 1 + the largest stored id, so it exceeds every stored id, and is 1 in an empty file. */
  lemma SaveAssignsFreshId(file: Option<ProviderFile>, name: string, providerType: ProviderType, options: Options, io: SaveIo)
    requires SaveOutcome(file, name, providerType, options, io).0.Ok?
    ensures var id := SaveOutcome(file, name, providerType, options, io).0.value;
      var recs := OpenedForWrite(file).records;
      id == MaxProviderId(recs) + 1 && id >= 1
      && (forall j :: 0 <= j < |recs| ==> recs[j].providerId < id)
      && (recs == [] ==> id == 1)
  {
    MaxProviderIdBound(OpenedForWrite(file).records);
  }

  /** A strcmp-equal name is refused with DUPLICATE_OBJECT and leaves the records as they were. */
  lemma SaveRejectsDuplicate(file: Option<ProviderFile>, name: string, providerType: ProviderType, options: Options, io: SaveIo)
    requires io.openOk
    requires HasExactName(OpenedForWrite(file).records, name)
    ensures SaveOutcome(file, name, providerType, options, io) == (Err(DuplicateProvider(name)), Some(OpenedForWrite(file)))
  {
  }

  /** A successful save appends exactly one record at the end and keeps every earlier record. */
  lemma SaveAppendsOneRecord(file: Option<ProviderFile>, name: string, providerType: ProviderType, options: Options, io: SaveIo)
    requires SaveOutcome(file, name, providerType, options, io).0.Ok?
    ensures var (r, file') := SaveOutcome(file, name, providerType, options, io);
      file' == Some(ProviderFile(OpenedForWrite(file).records + [ProviderRecord(r.value, name, providerType, options)], 0))
      && OpenedForWrite(file).tailBytes == 0
  {
  }

  /** Ids handed out by two successive successful saves strictly increase. */
  lemma SuccessiveSavesIncreaseIds(file: Option<ProviderFile>, n1: string, t1: ProviderType, o1: Options, io1: SaveIo,
                                   n2: string, t2: ProviderType, o2: Options, io2: SaveIo)
    requires SaveOutcome(file, n1, t1, o1, io1).0.Ok?
    requires SaveOutcome(SaveOutcome(file, n1, t1, o1, io1).1, n2, t2, o2, io2).0.Ok?
    ensures SaveOutcome(file, n1, t1, o1, io1).0.value < SaveOutcome(SaveOutcome(file, n1, t1, o1, io1).1, n2, t2, o2, io2).0.value
  {
    var (r1, f1) := SaveOutcome(file, n1, t1, o1, io1);
    var recs1 := OpenedForWrite(f1).records;
    assert recs1[|recs1| - 1].providerId == r1.value;
    SaveAssignsFreshId(f1, n2, t2, o2, io2);
  }

  /** Registering the same name twice: the second save is refused and the registry stays as the first save left it. */
  lemma SecondRegistrationRejected(file: Option<ProviderFile>, name: string, t1: ProviderType, o1: Options, io1: SaveIo,
                                   t2: ProviderType, o2: Options, io2: SaveIo)
    requires SaveOutcome(file, name, t1, o1, io1).0.Ok?
    requires io2.openOk
    ensures var f1 := SaveOutcome(file, name, t1, o1, io1).1;
      SaveOutcome(f1, name, t2, o2, io2) == (Err(DuplicateProvider(name)), f1)
  {
    var f1 := SaveOutcome(file, name, t1, o1, io1).1;
    var recs1 := OpenedForWrite(f1).records;
    assert recs1[|recs1| - 1].providerName == name;
  }

  /** After a successful save with loadable options, a scan by the new id finds exactly the new provider. */
  lemma SavedProviderFoundById(file: Option<ProviderFile>, name: string, providerType: ProviderType, options: Options, io: SaveIo)
    requires SaveOutcome(file, name, providerType, options, io).0.Ok?
    requires LoadKeyringProviderOptions(providerType, options).Some?
    ensures var (r, file') := SaveOutcome(file, name, providerType, options, io);
      ScanResult(file', ScanById(r.value))
        == Ok([GenericKeyring(r.value, name, providerType, LoadKeyringProviderOptions(providerType, options).value)])
  {
    var (r, file') := SaveOutcome(file, name, providerType, options, io);
    var recs := OpenedForWrite(file).records;
    var recs' := file'.value.records;
    SaveAssignsFreshId(file, name, providerType, options, io);
    SelectedEmpty(recs, ScanById(r.value));
    assert Selected(recs, ScanById(r.value)) == [];
    SaveAppendsOneRecord(file, name, providerType, options, io);
    assert file'.value.tailBytes == 0;
    assert recs'[..|recs'| - 1] == recs;
    var rec := ProviderRecord(r.value, name, providerType, options);
    assert recs'[|recs'| - 1] == rec;
    assert Picked(rec, ScanById(r.value))
      == [GenericKeyring(r.value, name, providerType, LoadKeyringProviderOptions(providerType, options).value)];
    assert Selected(recs', ScanById(r.value)) == Selected(recs, ScanById(r.value)) + Picked(rec, ScanById(r.value));
    assert file'.Some?;
    var gk := GenericKeyring(r.value, name, providerType, LoadKeyringProviderOptions(providerType, options).value);
    assert Selected(recs', ScanById(r.value)) == [] + [gk];
    assert Selected(recs', ScanById(r.value)) == [gk];
    assert ScanResult(file', ScanById(r.value)) == Ok(Selected(recs', ScanById(r.value)));
    assert ScanResult(file', ScanById(r.value))
      == Ok([GenericKeyring(r.value, name, providerType, LoadKeyringProviderOptions(providerType, options).value)]);
  }

  /**
   * The duplicate check is case-sensitive but lookup by name is not: when a
   * stored, loadable provider's name differs from `name` only in case, the
   * save of `name` is not a duplicate, and a later lookup of `name` still
   * answers with an older provider, never the one just saved.
   */
  lemma CaseVariantIsShadowed(file: Option<ProviderFile>, name: string, providerType: ProviderType, options: Options, io: SaveIo, j: nat)
    requires io.openOk && io.fsyncOk && io.bytesWritten == KEYRING_PROVIDER_RECORD_SIZE
    requires OpenedForWrite(file).tailBytes == 0 && !HasExactName(OpenedForWrite(file).records, name)
    requires j < |OpenedForWrite(file).records|
    requires StrCaseEq(OpenedForWrite(file).records[j].providerName, name) && Loadable(OpenedForWrite(file).records[j])
    ensures var (r, file') := SaveOutcome(file, name, providerType, options, io);
      r.Ok? && ScanResult(file', ScanByName(name)).Ok?
      && ScanResult(file', ScanByName(name)).value != []
      && ScanResult(file', ScanByName(name)).value[0].keyId != r.value
  {
    var recs := OpenedForWrite(file).records;
    var (r, file') := SaveOutcome(file, name, providerType, options, io);
    var recs' := file'.value.records;
    SaveAssignsFreshId(file, name, providerType, options, io);
    assert recs'[j] == recs[j];
    SelectedEmpty(recs', ScanByName(name));
    SelectedHead(recs', ScanByName(name));
    var h := ScanResult(file', ScanByName(name)).value[0];
    var k :| 0 <= k < |recs'| && Matches(recs'[k], ScanByName(name)) && LoadKeyringProviderFromRecord(recs'[k]) == Some(h)
      && forall i :: 0 <= i < k ==> !(Matches(recs'[i], ScanByName(name)) && Loadable(recs'[i]));
    assert k <= j;
    assert recs'[k] == recs[k];
  }

  /** What GetKeyProviderByName returns: the first loadable case-insensitive match, or an error when there is none. */
  function ProviderByName(file: Option<ProviderFile>, providerName: string): (r: Result<GenericKeyring>)
    ensures ScanResult(file, ScanByName(providerName)).Err? ==> r == Err(ScanResult(file, ScanByName(providerName)).error)
    ensures ScanResult(file, ScanByName(providerName)) == Ok([]) ==> r == Err(ProviderDoesNotExist(providerName))
    ensures r.Ok? ==> ScanResult(file, ScanByName(providerName)).Ok? && ScanResult(file, ScanByName(providerName)).value != []
    ensures r.Ok? ==> r.value == ScanResult(file, ScanByName(providerName)).value[0]
    ensures r.Ok? ==> StrCaseEq(r.value.providerName, providerName)
  {
    match ScanResult(file, ScanByName(providerName))
    case Err(e) => Err(e)
    case Ok(providers) =>
      if providers == [] then Err(ProviderDoesNotExist(providerName))
      else
        SelectedMembers(file.value.records, ScanByName(providerName), providers[0]);
        Ok(providers[0])
  }

  /** What GetKeyProviderByID returns: the first loadable match, or None (NULL) when there is none. */
  function ProviderById(file: Option<ProviderFile>, providerId: int): (r: Result<Option<GenericKeyring>>)
    ensures ScanResult(file, ScanById(providerId)).Err? ==> r == Err(ScanResult(file, ScanById(providerId)).error)
    ensures ScanResult(file, ScanById(providerId)) == Ok([]) ==> r == Ok(None)
    ensures r.Ok? && r.value.Some? ==> ScanResult(file, ScanById(providerId)).Ok? && ScanResult(file, ScanById(providerId)).value != []
    ensures r.Ok? && r.value.Some? ==> r.value.value == ScanResult(file, ScanById(providerId)).value[0]
    ensures r.Ok? && r.value.Some? ==> r.value.value.keyId == providerId
  {
    match ScanResult(file, ScanById(providerId))
    case Err(e) => Err(e)
    case Ok(providers) =>
      if providers == [] then Ok(None)
      else
        SelectedMembers(file.value.records, ScanById(providerId), providers[0]);
        Ok(Some(providers[0]))
  }

  // ------------------------------------------------------------------
  // The registry file of one scope

  class KeyProviderInfoFile {
    /** The pg_tde_keyrings file of this scope; None when it does not exist. */
    var file: Option<ProviderFile>

    ghost predicate Valid()
      reads this
    {
      file.Some? ==> WellFormedFile(file.value)
    }

    constructor (initial: Option<ProviderFile>)
      requires initial.Some? ==> WellFormedFile(initial.value)
      ensures Valid() && file == initial
    {
      file := initial;
    }

    /** scan_key_provider_file */
    method ScanKeyProviderFile(key: ScanKey) returns (r: Result<seq<GenericKeyring>>)
      requires Valid()
      ensures r == ScanResult(file, key)
    {
      if file.None? {
        return Ok([]);
      }
      var f := file.value;
      var currPos: nat := 0;
      var providers: seq<GenericKeyring> := [];
      ghost var i: nat := 0;
      while true
        invariant i <= |f.records| && currPos == i * KEYRING_PROVIDER_RECORD_SIZE
        invariant providers == Selected(f.records[..i], key)
        decreases |f.records| - i
      {
        ProviderRecordBoundary(i);
        var fetched := FetchNextKeyProvider(f, currPos);
        match fetched {
          case EndOfData =>
            assert f.records[..i] == f.records;
            return Ok(providers);
          case Corrupt(n) =>
            return Err(FileCorrupted(n));
          case Fetched(rec, next) =>
            SelectedPrefix(f.records, i, key);
            if Matches(rec, key) {
              var keyring := LoadKeyringProviderFromRecord(rec);
              if keyring.Some? {
                providers := providers + [keyring.value];
              }
            }
            currPos := next;
            i := i + 1;
        }
      }
    }

    /** save_key_provider: scan for a strcmp-equal name and the largest id, then append one record. */
    method SaveKeyProvider(name: string, providerType: ProviderType, options: Options, io: SaveIo) returns (r: Result<int>)
      requires Valid() && ValidSaveIo(io)
      modifies this
      ensures Valid()
      ensures (r, file) == SaveOutcome(old(file), name, providerType, options, io)
    {
      if !io.openOk {
        return Err(FileOpenFailed);
      }
      var f := OpenedForWrite(file);
      file := Some(f);
      var currPos: nat := 0;
      var maxProviderId := 0;
      ghost var i: nat := 0;
      while true
        invariant i <= |f.records| && currPos == i * KEYRING_PROVIDER_RECORD_SIZE
        invariant file == Some(f)
        invariant !HasExactName(f.records[..i], name)
        invariant maxProviderId == MaxProviderId(f.records[..i])
        decreases |f.records| - i
      {
        ProviderRecordBoundary(i);
        var fetched := FetchNextKeyProvider(f, currPos);
        match fetched {
          case EndOfData =>
            assert f.records[..i] == f.records;
            break;
          case Corrupt(n) =>
            assert f.records[..i] == f.records;
            assert n == f.tailBytes && !HasExactName(f.records, name);
            assert SaveOutcome(old(file), name, providerType, options, io) == (Err(FileCorrupted(n)), Some(f));
            return Err(FileCorrupted(n));
          case Fetched(existing, next) =>
            assert f.records[..i + 1][..i] == f.records[..i];
            if existing.providerName == name {
              assert f.records[i].providerName == name;
              assert HasExactName(f.records, name);
              assert SaveOutcome(old(file), name, providerType, options, io) == (Err(DuplicateProvider(name)), Some(f));
              return Err(DuplicateProvider(name));
            }
            if maxProviderId < existing.providerId {
              maxProviderId := existing.providerId;
            }
            currPos := next;
            i := i + 1;
        }
      }
      var id := maxProviderId + 1;
      var rec := ProviderRecord(id, name, providerType, options);
      if io.bytesWritten != KEYRING_PROVIDER_RECORD_SIZE {
        file := Some(ProviderFile(f.records, if io.bytesWritten > 0 then io.bytesWritten else 0));
        return Err(FileWriteFailed(io.bytesWritten));
      }
      file := Some(ProviderFile(f.records + [rec], 0));
      if !io.fsyncOk {
        return Err(FileSyncFailed);
      }
      return Ok(id);
    }

    /** GetAllKeyringProviders */
    method GetAllKeyringProviders() returns (r: Result<seq<GenericKeyring>>)
      requires Valid()
      ensures r == ScanResult(file, ScanAll)
    {
      r := ScanKeyProviderFile(ScanAll);
    }

    /** GetKeyProviderByName: the first match, or an error when there is none. */
    method GetKeyProviderByName(providerName: string) returns (r: Result<GenericKeyring>)
      requires Valid()
      ensures r == ProviderByName(file, providerName)
    {
      var providers := ScanKeyProviderFile(ScanByName(providerName));
      if providers.Err? {
        return Err(providers.error);
      }
      if providers.value == [] {
        return Err(ProviderDoesNotExist(providerName));
      }
      return Ok(providers.value[0]);
    }

    /** GetKeyProviderByID: the first match, or None (NULL) when there is none. */
    method GetKeyProviderByID(providerId: int) returns (r: Result<Option<GenericKeyring>>)
      requires Valid()
      ensures r == ProviderById(file, providerId)
    {
      var providers := ScanKeyProviderFile(ScanById(providerId));
      if providers.Err? {
        return Err(providers.error);
      }
      if providers.value == [] {
        return Ok(None);
      }
      return Ok(Some(providers.value[0]));
    }
  }
}
