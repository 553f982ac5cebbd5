/** The session index on disk: one file holding all records, rewritten as a whole by every change. */
module FileStore {
  import opened Prelude
  import opened SessionSpec

  datatype StoredSession = StoredSession(sessionID: string, spec: Spec, createdAt: int, updatedAt: int)

  // ---------- What the file holds ----------

  /** A settings object as written: the credential fingerprint is not among its fields. */
  datatype DiskSpec = DiskSpec(
    model: string, systemPrompt: string, systemPromptMode: string, reasoningEffort: string, agent: string,
    interactive: bool, toolsFingerprint: seq<string>, permissionMode: string, providerFingerprint: string)

  datatype DiskRecord = DiskRecord(sessionID: string, spec: DiskSpec, createdAt: int, updatedAt: int)

  /** The file is missing, empty, not JSON, the JSON value null, or a map of records. */
  datatype Disk = Missing | Blank | Garbage | Null | Document(records: map<string, DiskRecord>)

  function EncodeSpec(s: Spec): DiskSpec {
    DiskSpec(s.model, s.systemPrompt, s.systemPromptMode, s.reasoningEffort, s.agent, s.interactive,
             s.toolsFingerprint, s.permissionMode, s.providerFingerprint)
  }

  function DecodeSpec(d: DiskSpec): Spec {
    Spec(d.model, d.systemPrompt, d.systemPromptMode, d.reasoningEffort, d.agent, d.interactive,
         d.toolsFingerprint, d.permissionMode, d.providerFingerprint, "")
  }

  function Encode(r: StoredSession): DiskRecord {
    DiskRecord(r.sessionID, EncodeSpec(r.spec), r.createdAt, r.updatedAt)
  }

  function Decode(d: DiskRecord): StoredSession {
    StoredSession(d.sessionID, DecodeSpec(d.spec), d.createdAt, d.updatedAt)
  }

  /** A record as it comes back from the disk. */
  function Erased(r: StoredSession): StoredSession {
    r.(spec := SpecForStorage(r.spec))
  }

  function EncodeAll(records: map<string, StoredSession>): map<string, DiskRecord> {
    map k | k in records :: Encode(records[k])
  }

  function DecodeAll(records: map<string, DiskRecord>): map<string, StoredSession> {
    map k | k in records :: Decode(records[k])
  }

  // ---------- The store on values ----------

  datatype StoreError = ReadFailed | Malformed | WriteFailed

  /** Whether the file can be read and replaced this time. */
  datatype Io = Io(readOk: bool, writeOk: bool)

  datatype Store = Store(path: string, disk: Disk)

  function ReadAll(s: Store, io: Io): Result<map<string, StoredSession>, StoreError> {
    if s.path == "" || s.disk.Missing? then Ok(map[])
    else if !io.readOk then Err(ReadFailed)
    else match s.disk
      case Garbage => Err(Malformed)
      case Document(records) => Ok(DecodeAll(records))
      case _ => Ok(map[])
  }

  /** The file is replaced by renaming a temporary one over it: all or nothing. */
  function WriteAll(s: Store, records: map<string, StoredSession>, io: Io): Result<Store, StoreError> {
    if s.path == "" then Ok(s)
    else if !io.writeOk then Err(WriteFailed)
    else Ok(s.(disk := Document(EncodeAll(records))))
  }

  function Load(s: Store, key: string, io: Io): Result<Option<StoredSession>, StoreError> {
    var all := ReadAll(s, io);
    if all.Err? then Err(all.error)
    else Ok(if key in all.value then Some(all.value[key]) else None)
  }

  function Save(s: Store, key: string, record: StoredSession, io: Io): Result<Store, StoreError> {
    var all := ReadAll(s, io);
    if all.Err? then Err(all.error) else WriteAll(s, all.value[key := record], io)
  }

  function Delete(s: Store, key: string, io: Io): Result<Store, StoreError> {
    var all := ReadAll(s, io);
    if all.Err? then Err(all.error)
    else if key !in all.value then Ok(s)
    else WriteAll(s, all.value - {key}, io)
  }

  // ---------- What it means ----------

  /** The map the file stands for. */
  function Records(s: Store): map<string, StoredSession> {
    if s.path != "" && s.disk.Document? then DecodeAll(s.disk.records) else map[]
  }

  /** A store that keeps anything at all. */
  predicate Persistent(s: Store) {
    s.path != ""
  }

  lemma DecodeAfterEncode(r: StoredSession)
    ensures Decode(Encode(r)) == Erased(r)
  {
  }

  lemma WrittenRecords(s: Store, records: map<string, StoredSession>, io: Io)
    requires Persistent(s) && WriteAll(s, records, io).Ok?
    ensures Records(WriteAll(s, records, io).value) == map k | k in records :: Erased(records[k])
  {
    var written := EncodeAll(records);
    forall k | k in records ensures Decode(written[k]) == Erased(records[k]) {
      DecodeAfterEncode(records[k]);
    }
    assert DecodeAll(written) == map k | k in records :: Erased(records[k]);
  }

  /** What is read from the disk is already erased, so writing it back changes nothing. */
  lemma RecordsAreErased(s: Store, k: string)
    ensures k in Records(s) ==> Erased(Records(s)[k]) == Records(s)[k]
  {
  }

  lemma ReadsRecords(s: Store, io: Io)
    ensures ReadAll(s, io).Ok? ==> ReadAll(s, io).value == Records(s)
    ensures ReadAll(s, io).Ok? <==> s.path == "" || s.disk.Missing? || (io.readOk && !s.disk.Garbage?)
  {
  }

  /** The file refines a map whose values have lost their credentials: each operation either fails and
      leaves the map alone, or does to the map what its name says. A store without a path never fails and
      keeps nothing. */
  lemma StoreRefinesMap(s: Store, key: string, record: StoredSession, io: Io)
    ensures Load(s, key, io).Ok? ==>
      Load(s, key, io).value == if key in Records(s) then Some(Records(s)[key]) else None
    ensures Save(s, key, record, io).Ok? ==>
      var s' := Save(s, key, record, io).value;
      s'.path == s.path && Records(s') == if Persistent(s) then Records(s)[key := Erased(record)] else map[]
    ensures Delete(s, key, io).Ok? ==>
      var s' := Delete(s, key, io).value;
      s'.path == s.path && Records(s') == Records(s) - {key}
    ensures Persistent(s) && s.disk.Garbage? ==>
      Load(s, key, io).Err? && Save(s, key, record, io).Err? && Delete(s, key, io).Err?
    ensures !Persistent(s) || (io.readOk && io.writeOk && !s.disk.Garbage?) ==>
      Load(s, key, io).Ok? && Save(s, key, record, io).Ok? && Delete(s, key, io).Ok?
  {
    ReadsRecords(s, io);
    SaveRefines(s, key, record, io);
    DeleteRefines(s, key, io);
  }

  lemma SaveRefines(s: Store, key: string, record: StoredSession, io: Io)
    ensures Save(s, key, record, io).Ok? ==>
      var s' := Save(s, key, record, io).value;
      s'.path == s.path && Records(s') == if Persistent(s) then Records(s)[key := Erased(record)] else map[]
  {
    ReadsRecords(s, io);
    if Persistent(s) && Save(s, key, record, io).Ok? {
      var all := Records(s)[key := record];
      WrittenRecords(s, all, io);
      forall k | k in all ensures Erased(all[k]) == Records(s)[key := Erased(record)][k] {
        RecordsAreErased(s, k);
      }
    }
  }

  lemma DeleteRefines(s: Store, key: string, io: Io)
    ensures Delete(s, key, io).Ok? ==>
      var s' := Delete(s, key, io).value;
      s'.path == s.path && Records(s') == Records(s) - {key}
  {
    ReadsRecords(s, io);
    if Persistent(s) && Delete(s, key, io).Ok? && key in Records(s) {
      var all := Records(s) - {key};
      WrittenRecords(s, all, io);
      forall k | k in all ensures Erased(all[k]) == all[k] {
        RecordsAreErased(s, k);
      }
    } else {
      assert Records(s) - {key} == Records(s) || key in Records(s);
    }
  }

  // ---------- The store as the gateway runs it ----------

  class FileStore {
    const path: string
    var disk: Disk

    function Value(): Store
      reads this
    {
      Store(path, disk)
    }

    constructor (path: string, disk: Disk)
      ensures Value() == Store(path, disk)
    {
      this.path := path;
      this.disk := disk;
    }

    method ReadAllLocked(io: Io) returns (r: Result<map<string, StoredSession>, StoreError>)
      ensures r == ReadAll(Value(), io)
    {
      if path == "" || disk.Missing? {
        return Ok(map[]);
      }
      if !io.readOk {
        return Err(ReadFailed);
      }
      match disk
      case Garbage => return Err(Malformed);
      case Document(records) => return Ok(DecodeAll(records));
      case _ => return Ok(map[]);
    }

    method WriteAllLocked(records: map<string, StoredSession>, io: Io) returns (error: Option<StoreError>)
      modifies this
      ensures WriteAll(old(Value()), records, io) == if error == None then Ok(Value()) else Err(error.value)
      ensures error.Some? ==> Value() == old(Value())
    {
      if path == "" {
        return None;
      }
      if !io.writeOk {
        return Some(WriteFailed);
      }
      disk := Document(EncodeAll(records));
      return None;
    }

    method LoadRecord(key: string, io: Io) returns (r: Result<Option<StoredSession>, StoreError>)
      ensures r == Load(Value(), key, io)
    {
      var all := ReadAllLocked(io);
      if all.Err? {
        return Err(all.error);
      }
      return Ok(if key in all.value then Some(all.value[key]) else None);
    }

    method SaveRecord(key: string, record: StoredSession, io: Io) returns (error: Option<StoreError>)
      modifies this
      ensures Save(old(Value()), key, record, io) == if error == None then Ok(Value()) else Err(error.value)
      ensures error.Some? ==> Value() == old(Value())
    {
      var all := ReadAllLocked(io);
      if all.Err? {
        return Some(all.error);
      }
      error := WriteAllLocked(all.value[key := record], io);
    }

    method DeleteRecord(key: string, io: Io) returns (error: Option<StoreError>)
      modifies this
      ensures Delete(old(Value()), key, io) == if error == None then Ok(Value()) else Err(error.value)
      ensures error.Some? ==> Value() == old(Value())
    {
      var all := ReadAllLocked(io);
      if all.Err? {
        return Some(all.error);
      }
      if key !in all.value {
        return None;
      }
      error := WriteAllLocked(all.value - {key}, io);
    }
  }
}
