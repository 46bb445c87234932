/**
 * The file keyring provider (src/keyring/keyring_file.c): a flat file of
 * fixed-size key records. `get_key_by_name` scans for a record whose name
 * matches case-insensitively; `set_key_by_name` refuses a name that is
 * already present and otherwise appends one record.
 *
 * The source passes offset 0 to every FileRead and FileWrite call. The
 * members below model the scan and the append the code evidently intends
 * (advancing by one record per read, writing at the end of the file); the
 * scan as written is modelled separately by AsWrittenGetKeyByName, which
 * never gets past the first record.
 */
module KeyringFile {
  import opened Wrappers
  import opened CString
  import opened KeyringApi

  /** keyInfo: the key's name and its bytes. */
  datatype KeyInfo = KeyInfo(name: string, data: KeyData)

  /**
   * sizeof(keyInfo) and sizeof(keyInfo.name.name): a 256-byte name, 32 key
   * bytes and a length word. The header that fixes the layout is not part of
   * this model; the proofs use only that the record size is positive.
   */
  const KEY_INFO_SIZE: nat := 292
  const KEY_NAME_LEN: nat := 256

  /** The keyring file: whole records followed by `tailBytes` bytes of an incomplete one. */
  datatype KeyFile = KeyFile(records: seq<KeyInfo>, tailBytes: nat)

  predicate WellFormedKeyFile(f: KeyFile) {
    f.tailBytes < KEY_INFO_SIZE
  }

  function KeyFileSize(f: KeyFile): nat {
    |f.records| * KEY_INFO_SIZE + f.tailBytes
  }

  /** The name test of get_key_by_name: strncasecmp within the name field's length. */
  predicate NameMatches(rec: KeyInfo, keyName: string) {
    StrNCaseEq(rec.name, keyName, KEY_NAME_LEN)
  }

  /** The byte offset of record i is a record boundary that names record i. */
  lemma KeyRecordBoundary(i: nat)
    ensures (i * KEY_INFO_SIZE) % KEY_INFO_SIZE == 0 && (i * KEY_INFO_SIZE) / KEY_INFO_SIZE == i
  {
  }

  datatype ReadResult = FullRecord(rec: KeyInfo) | NoBytes | ShortRead(bytesRead: nat)

  /** FileRead of one record at byte offset pos (a record boundary). */
  function FileReadAt(f: KeyFile, pos: nat): (r: ReadResult)
    requires WellFormedKeyFile(f)
    requires pos % KEY_INFO_SIZE == 0
    ensures r.FullRecord? <==> pos / KEY_INFO_SIZE < |f.records|
    ensures r.FullRecord? ==> r.rec == f.records[pos / KEY_INFO_SIZE]
    ensures r.NoBytes? <==> pos >= KeyFileSize(f)
    ensures r.ShortRead? <==> pos / KEY_INFO_SIZE == |f.records| && f.tailBytes > 0
  {
    if pos >= KeyFileSize(f) then NoBytes
    else if KeyFileSize(f) - pos < KEY_INFO_SIZE then ShortRead(KeyFileSize(f) - pos)
    else FullRecord(f.records[pos / KEY_INFO_SIZE])
  }

  /**
   * What get_key_by_name reports: the record, a NULL result that leaves
   * *return_code as the caller set it (the end-of-file path never assigns
   * it), or a NULL result with the code it assigns; `raised` says the
   * failure was reported at ERROR level (throw_error).
   */
  datatype GetResult = Found(key: KeyInfo) | NotFound | GetFailed(code: KeyringReturnCode, raised: bool)

  /** The index of the first record whose name matches, if any. */
  function FirstMatch(recs: seq<KeyInfo>, keyName: string): (r: Option<nat>)
    ensures r.Some? ==> r.value < |recs| && NameMatches(recs[r.value], keyName)
    ensures r.Some? ==> forall j :: 0 <= j < r.value ==> !NameMatches(recs[j], keyName)
    ensures r.None? ==> forall j :: 0 <= j < |recs| ==> !NameMatches(recs[j], keyName)
    decreases |recs|
  {
    if recs == [] then None
    else if NameMatches(recs[0], keyName) then Some(0)
    else
      match FirstMatch(recs[1..], keyName)
      case None => None
      case Some(i) => Some(i + 1)
  }

  /** A matching record with no match before it is the first match. */
  lemma FirstMatchAt(recs: seq<KeyInfo>, keyName: string, i: nat)
    requires i < |recs| && NameMatches(recs[i], keyName)
    requires forall j :: 0 <= j < i ==> !NameMatches(recs[j], keyName)
    ensures FirstMatch(recs, keyName) == Some(i)
  {
  }

  /** With no matching record there is no first match. */
  lemma FirstMatchNone(recs: seq<KeyInfo>, keyName: string)
    requires forall j :: 0 <= j < |recs| ==> !NameMatches(recs[j], keyName)
    ensures FirstMatch(recs, keyName) == None
  {
  }

  /** get_key_by_name with the intended linear scan. */
  function GetKeyByNameSpec(accessible: bool, f: KeyFile, keyName: string, throwError: bool): GetResult {
    if !accessible then GetFailed(KeyringCodeResourceNotAccessable, throwError)
    else
      match FirstMatch(f.records, keyName)
      case Some(i) => Found(f.records[i])
      case None => if f.tailBytes == 0 then NotFound else GetFailed(KeyringCodeDataCorrupted, throwError)
  }

  /**
   * The file after FileWrite appended `written` bytes of `key` (a negative
   * count writes nothing). Appended after a partial record, the bytes do
   * not line up with record boundaries: the whole record that then
   * completes is `junk`, whatever those mixed bytes decode to.
   */
  function AppendBytes(f: KeyFile, key: KeyInfo, written: int, junk: KeyInfo): (f': KeyFile)
    requires WellFormedKeyFile(f) && written <= KEY_INFO_SIZE
    ensures WellFormedKeyFile(f')
  {
    var n := if written > 0 then written else 0;
    var total := f.tailBytes + n;
    if total >= KEY_INFO_SIZE then KeyFile(f.records + [if f.tailBytes == 0 then key else junk], total - KEY_INFO_SIZE)
    else KeyFile(f.records, total)
  }

  datatype SetResult = SetResult(code: KeyringReturnCode, raised: bool)

  /** set_key_by_name: the code returned and the file afterwards. */
  function SetKeyByNameSpec(accessible: bool, f: KeyFile, key: KeyInfo, throwError: bool, written: int, junk: KeyInfo)
    : (SetResult, KeyFile)
    requires WellFormedKeyFile(f) && written <= KEY_INFO_SIZE
  {
    if GetKeyByNameSpec(accessible, f, key.name, false).Found? then (SetResult(KeyringCodeInvalidOperation, throwError), f)
    else if !accessible then (SetResult(KeyringCodeResourceNotAccessable, throwError), f)
    else
      var f' := AppendBytes(f, key, written, junk);
      if written != KEY_INFO_SIZE then (SetResult(KeyringCodeResourceNotAccessable, throwError), f')
      else (SetResult(KeyringCodeSuccess, false), f')
  }

  /** A found key matches the requested name case-insensitively, and no earlier record does. */
  lemma GetFindsFirstCaseInsensitiveMatch(accessible: bool, f: KeyFile, keyName: string, throwError: bool)
    requires GetKeyByNameSpec(accessible, f, keyName, throwError).Found?
    ensures exists i :: (0 <= i < |f.records| && f.records[i] == GetKeyByNameSpec(accessible, f, keyName, throwError).key
      && NameMatches(f.records[i], keyName)
      && (forall j :: 0 <= j < i ==> !NameMatches(f.records[j], keyName)))
  {
    var i := FirstMatch(f.records, keyName).value;
    assert f.records[i] == GetKeyByNameSpec(accessible, f, keyName, throwError).key;
  }

  /** The three NULL results of get_key_by_name and what decides each. */
  lemma GetNullResults(accessible: bool, f: KeyFile, keyName: string, throwError: bool)
    ensures !accessible ==>
      GetKeyByNameSpec(accessible, f, keyName, throwError) == GetFailed(KeyringCodeResourceNotAccessable, throwError)
    ensures accessible && (forall j :: 0 <= j < |f.records| ==> !NameMatches(f.records[j], keyName)) ==>
      GetKeyByNameSpec(accessible, f, keyName, throwError)
        == (if f.tailBytes == 0 then NotFound else GetFailed(KeyringCodeDataCorrupted, throwError))
  {
  }

  /** A matching name is refused with INVALID_OPERATION and nothing is written. */
  lemma SetRejectsExistingName(accessible: bool, f: KeyFile, key: KeyInfo, throwError: bool, written: int, junk: KeyInfo, i: nat)
    requires WellFormedKeyFile(f) && written <= KEY_INFO_SIZE
    requires accessible && i < |f.records| && NameMatches(f.records[i], key.name)
    ensures SetKeyByNameSpec(accessible, f, key, throwError, written, junk) == (SetResult(KeyringCodeInvalidOperation, throwError), f)
  {
  }

  /** A successful store on an intact file appends exactly the key and keeps every earlier record. */
  lemma SetAppendsOneRecord(accessible: bool, f: KeyFile, key: KeyInfo, throwError: bool, written: int, junk: KeyInfo)
    requires WellFormedKeyFile(f) && written <= KEY_INFO_SIZE && f.tailBytes == 0
    requires SetKeyByNameSpec(accessible, f, key, throwError, written, junk).0.code == KeyringCodeSuccess
    ensures SetKeyByNameSpec(accessible, f, key, throwError, written, junk).1 == KeyFile(f.records + [key], 0)
  {
  }

  /** An open failure or a short write is reported as RESOURCE_NOT_ACCESSABLE. */
  lemma SetIoFailures(accessible: bool, f: KeyFile, key: KeyInfo, throwError: bool, written: int, junk: KeyInfo)
    requires WellFormedKeyFile(f) && written <= KEY_INFO_SIZE
    requires !GetKeyByNameSpec(accessible, f, key.name, false).Found?
    requires !accessible || written != KEY_INFO_SIZE
    ensures SetKeyByNameSpec(accessible, f, key, throwError, written, junk).0 == SetResult(KeyringCodeResourceNotAccessable, throwError)
  {
  }

  lemma NameMatchesItself(rec: KeyInfo)
    ensures NameMatches(rec, rec.name)
  {
  }

  /** Round trip: after a successful store on an intact file, looking the name up returns the stored key. */
  lemma SetThenGet(accessible: bool, f: KeyFile, key: KeyInfo, throwError: bool, written: int, junk: KeyInfo, throwError2: bool)
    requires WellFormedKeyFile(f) && written <= KEY_INFO_SIZE && f.tailBytes == 0
    requires SetKeyByNameSpec(accessible, f, key, throwError, written, junk).0.code == KeyringCodeSuccess
    ensures GetKeyByNameSpec(accessible, SetKeyByNameSpec(accessible, f, key, throwError, written, junk).1, key.name, throwError2)
      == Found(key)
  {
    var f' := SetKeyByNameSpec(accessible, f, key, throwError, written, junk).1;
    assert f'.records == f.records + [key];
    assert FirstMatch(f.records, key.name).None?;
    NameMatchesItself(key);
    var m := FirstMatch(f'.records, key.name);
    assert m.Some? by {
      assert NameMatches(f'.records[|f.records|], key.name);
    }
    assert m.value == |f.records|;
  }

  // ------------------------------------------------------------------
  // The scan as written: FileRead(file, key, sizeof(keyInfo), 0, ...)

  datatype LoopStep = Return(result: GetResult) | Continue

  /** One pass of the source's read loop; the offset is 0 on every pass, so every pass reads the same bytes. */
  function AsWrittenIteration(f: KeyFile, keyName: string, throwError: bool): LoopStep
    requires WellFormedKeyFile(f)
  {
    match FileReadAt(f, 0)
    case NoBytes => Return(NotFound)
    case ShortRead(_) => Return(GetFailed(KeyringCodeDataCorrupted, throwError))
    case FullRecord(rec) => if NameMatches(rec, keyName) then Return(Found(rec)) else Continue
  }

  /** get_key_by_name as written, run for at most `fuel` passes; None while it is still looping. */
  function AsWrittenGetKeyByName(accessible: bool, f: KeyFile, keyName: string, throwError: bool, fuel: nat): (r: Option<GetResult>)
    requires WellFormedKeyFile(f)
    decreases fuel
  {
    if !accessible then Some(GetFailed(KeyringCodeResourceNotAccessable, throwError))
    else if fuel == 0 then None
    else
      match AsWrittenIteration(f, keyName, throwError)
      case Return(g) => Some(g)
      case Continue => AsWrittenGetKeyByName(accessible, f, keyName, throwError, fuel - 1)
  }

  /** As written, a file whose first record does not match keeps the loop running for ever. */
  lemma {:induction false} AsWrittenLoopsOnFirstMismatch(f: KeyFile, keyName: string, throwError: bool, fuel: nat)
    requires WellFormedKeyFile(f) && |f.records| > 0 && !NameMatches(f.records[0], keyName)
    ensures AsWrittenGetKeyByName(true, f, keyName, throwError, fuel) == None
    decreases fuel
  {
    if fuel > 0 {
      assert AsWrittenIteration(f, keyName, throwError) == Continue;
      AsWrittenLoopsOnFirstMismatch(f, keyName, throwError, fuel - 1);
    }
  }

  /**
   * The discrepancy on a concrete file: the key "beta" stored second is found
   * by the intended scan, while the loop as written never returns.
   */
  lemma AsWrittenMissesSecondRecord(fuel: nat)
    ensures var f := KeyFile([KeyInfo("alpha", []), KeyInfo("beta", [])], 0);
      GetKeyByNameSpec(true, f, "beta", false) == Found(KeyInfo("beta", []))
      && AsWrittenGetKeyByName(true, f, "beta", false, fuel) == None
  {
    var f := KeyFile([KeyInfo("alpha", []), KeyInfo("beta", [])], 0);
    assert !NameMatches(f.records[0], "beta") by {
      assert Take("alpha", KEY_NAME_LEN) == "alpha" && Take("beta", KEY_NAME_LEN) == "beta";
      assert Lower("alpha")[0] == 'a' && Lower("beta")[0] == 'b';
    }
    NameMatchesItself(f.records[1]);
    assert FirstMatch(f.records, "beta") == Some(1) by {
      assert f.records[1..] == [KeyInfo("beta", [])];
    }
    AsWrittenLoopsOnFirstMismatch(f, "beta", false, fuel);
  }

  /**
   * The write as written: FileWrite at offset 0 ignores the lseek to the end,
   * so a whole record written to a file of whole records replaces the first one.
   */
  function AsWrittenStore(f: KeyFile, key: KeyInfo): (f': KeyFile)
    requires WellFormedKeyFile(f) && f.tailBytes == 0
    ensures WellFormedKeyFile(f')
  {
    if f.records == [] then KeyFile([key], 0) else KeyFile(f.records[0 := key], 0)
  }

  /**
   * The write at offset 0 on its own, paired with the intended scan: storing
   * "beta" next to "alpha" loses "alpha", where the intended append keeps
   * both. The overwrite is latent in the source as it stands: set_key_by_name
   * first calls get_key_by_name, which on this file loops for ever looking
   * for "beta" (AsWrittenLoopsOnFirstMismatch), so the write is reached only
   * once the read offset is corrected.
   */
  lemma AsWrittenStoreOverwritesFirstKey()
    ensures var f := KeyFile([KeyInfo("alpha", [])], 0);
      var key := KeyInfo("beta", []);
      GetKeyByNameSpec(true, AsWrittenStore(f, key), "alpha", false) == NotFound
      && GetKeyByNameSpec(true, AppendBytes(f, key, KEY_INFO_SIZE, key), "alpha", false) == Found(KeyInfo("alpha", []))
  {
    var f := KeyFile([KeyInfo("alpha", [])], 0);
    var key := KeyInfo("beta", []);
    assert !NameMatches(key, "alpha") by {
      assert Take("alpha", KEY_NAME_LEN) == "alpha" && Take("beta", KEY_NAME_LEN) == "beta";
      assert Lower("alpha")[0] == 'a' && Lower("beta")[0] == 'b';
    }
    NameMatchesItself(f.records[0]);
    assert AsWrittenStore(f, key).records == [key];
    assert FirstMatch([key], "alpha") == None by {
      assert [key][1..] == [];
    }
  }

  // ------------------------------------------------------------------

  /** The keyring file named in a FileKeyring configuration. */
  class FileKeyringStore {
    /** Whether PathNameOpenFile succeeds (it creates a missing file). */
    var accessible: bool
    var file: KeyFile

    ghost predicate Valid()
      reads this
    {
      WellFormedKeyFile(file)
    }

    constructor (accessible: bool, file: KeyFile)
      requires WellFormedKeyFile(file)
      ensures Valid() && this.accessible == accessible && this.file == file
    {
      this.accessible := accessible;
      this.file := file;
    }

    /** get_key_by_name, reading one record after another from the start of the file. */
    method GetKeyByName(keyName: string, throwError: bool) returns (r: GetResult)
      requires Valid()
      ensures r == GetKeyByNameSpec(accessible, file, keyName, throwError)
    {
      if !accessible {
        return GetFailed(KeyringCodeResourceNotAccessable, throwError);
      }
      var pos: nat := 0;
      ghost var i: nat := 0;
      while true
        invariant i <= |file.records| && pos == i * KEY_INFO_SIZE
        invariant forall j :: 0 <= j < i ==> !NameMatches(file.records[j], keyName)
        decreases |file.records| - i
      {
        KeyRecordBoundary(i);
        var read := FileReadAt(file, pos);
        match read {
          case NoBytes =>
            FirstMatchNone(file.records, keyName);
            return NotFound;
          case ShortRead(_) =>
            FirstMatchNone(file.records, keyName);
            return GetFailed(KeyringCodeDataCorrupted, throwError);
          case FullRecord(key) =>
            if NameMatches(key, keyName) {
              FirstMatchAt(file.records, keyName, i);
              return Found(key);
            }
            pos := pos + KEY_INFO_SIZE;
            i := i + 1;
        }
      }
    }

    /** set_key_by_name, appending at the end of the file. */
    method SetKeyByName(key: KeyInfo, throwError: bool, written: int, junk: KeyInfo) returns (r: SetResult)
      requires Valid() && written <= KEY_INFO_SIZE
      modifies this`file
      ensures Valid()
      ensures (r, file) == SetKeyByNameSpec(accessible, old(file), key, throwError, written, junk)
    {
      var existing := GetKeyByName(key.name, false);
      if existing.Found? {
        return SetResult(KeyringCodeInvalidOperation, throwError);
      }
      if !accessible {
        return SetResult(KeyringCodeResourceNotAccessable, throwError);
      }
      file := AppendBytes(file, key, written, junk);
      if written != KEY_INFO_SIZE {
        return SetResult(KeyringCodeResourceNotAccessable, throwError);
      }
      return SetResult(KeyringCodeSuccess, false);
    }
  }
}
