/** The profile directory that holds BASE and the journal, on a file system whose single-file writes
    and removals are atomic and whose machine may stop between any two of them. */
module BaseStore {
  import opened Vault
  import opened SyncProtocol

  const SCHEMA_VERSION: nat := 2
  const BASE_METADATA: string := "base.json"
  const JOURNAL_METADATA: string := "journal.json"
  const BASE_PREFIX: string := "base-"
  const CANDIDATE_PREFIX: string := "candidate-"

  datatype Identity = Identity(profile: nat, source: nat, target: nat)

  datatype BaseRecord = BaseRecord(schema: nat, owner: Identity, file: string, digest: Digest, revision: nat)

  datatype JournalRecord = JournalRecord(
    schema: nat, owner: Identity, op: nat, phase: Phase, expectedLocal: Digest, expectedRemote: Option<nat>,
    file: string, digest: Digest, committed: Option<nat>)

  /** What a directory entry holds: ciphertext, JSON of one of the two kinds, other JSON that still
      names a schema, bytes that do not parse or are too long, or no regular file at all. */
  datatype File =
    | Payload(bytes: Ciphertext)
    | BaseJson(base: BaseRecord)
    | JournalJson(record: JournalRecord)
    | OtherJson(schemaVersion: nat)
    | Unparsable
    | NotRegular

  type Files = map<string, File>

  datatype StoreError =
    | Io | InvalidMetadata | CorruptBase | CorruptJournal | UnsupportedSchema
    | WrongProfile | WrongSource | WrongTarget | ActiveJournal

  datatype Result<T> = Ok(value: T) | Err(error: StoreError)

  datatype BaseState = BaseState(bytes: Ciphertext, revision: nat)

  datatype LoadedJournal = LoadedJournal(record: JournalRecord, candidate: Ciphertext)

  // ---------------------------------------------------------------- reading

  predicate StartsWith(s: string, prefix: string)
  {
    |prefix| <= |s| && s[..|prefix|] == prefix
  }

  predicate EndsWith(s: string, suffix: string)
  {
    |suffix| <= |s| && s[|s| - |suffix|..] == suffix
  }

  /** One path component with the right prefix and a known suffix. */
  predicate PrivateFilename(s: string, prefix: string)
  {
    '/' !in s && StartsWith(s, prefix) && (EndsWith(s, ".kdbx") || EndsWith(s, ".json"))
  }

  datatype Schema = Missing | Current | Unsupported

  function SchemaOf(files: Files, name: string, corrupt: StoreError): (r: Result<Schema>)
  {
    if name !in files then Ok(Missing)
    else match files[name]
      case BaseJson(b) => Ok(if b.schema == SCHEMA_VERSION then Current else Unsupported)
      case JournalJson(j) => Ok(if j.schema == SCHEMA_VERSION then Current else Unsupported)
      case OtherJson(v) => Ok(if v == SCHEMA_VERSION then Current else Unsupported)
      case _ => Err(corrupt)
  }

  function ReadBaseRecord(files: Files): (r: Result<Option<BaseRecord>>)
  {
    if BASE_METADATA !in files then Ok(None)
    else if files[BASE_METADATA].BaseJson? then Ok(Some(files[BASE_METADATA].base))
    else Err(CorruptBase)
  }

  function ReadJournalRecord(files: Files): (r: Result<Option<JournalRecord>>)
  {
    if JOURNAL_METADATA !in files then Ok(None)
    else if files[JOURNAL_METADATA].JournalJson? then Ok(Some(files[JOURNAL_METADATA].record))
    else Err(CorruptJournal)
  }

  function IdentityError(expected: Identity, found: Identity): (r: Option<StoreError>)
  {
    if found.profile != expected.profile then Some(WrongProfile)
    else if found.source != expected.source then Some(WrongSource)
    else if found.target != expected.target then Some(WrongTarget)
    else None
  }

  /** The bytes of a file that is not ciphertext are never a vault. */
  function ReadPayload(files: Files, name: string): (r: Result<Ciphertext>)
  {
    if name !in files then Err(Io)
    else match files[name]
      case NotRegular => Err(InvalidMetadata)
      case Payload(bytes) => Ok(bytes)
      case _ => Ok(Garbage(0))
  }

  function StoredBase(owner: Identity, files: Files): (r: Result<Option<BaseState>>)
  {
    match SchemaOf(files, BASE_METADATA, CorruptBase)
    case Err(e) => Err(e)
    case Ok(Missing) => Ok(None)
    case Ok(Unsupported) => Err(UnsupportedSchema)
    case Ok(Current) =>
      match ReadBaseRecord(files)
      case Err(e) => Err(e)
      case Ok(None) => Ok(None)
      case Ok(Some(b)) =>
        if IdentityError(owner, b.owner).Some? then Err(IdentityError(owner, b.owner).value)
        else if !PrivateFilename(b.file, BASE_PREFIX) then Err(InvalidMetadata)
        else match ReadPayload(files, b.file)
          case Err(e) => Err(e)
          case Ok(bytes) => if Digest(bytes) != b.digest then Err(CorruptBase) else Ok(Some(BaseState(bytes, b.revision)))
  }

  function StoredJournal(owner: Identity, files: Files): (r: Result<Option<LoadedJournal>>)
  {
    match SchemaOf(files, JOURNAL_METADATA, CorruptJournal)
    case Err(e) => Err(e)
    case Ok(Missing) => Ok(None)
    case Ok(Unsupported) => Err(UnsupportedSchema)
    case Ok(Current) =>
      match ReadJournalRecord(files)
      case Err(e) => Err(e)
      case Ok(None) => Ok(None)
      case Ok(Some(j)) =>
        if IdentityError(owner, j.owner).Some? then Err(IdentityError(owner, j.owner).value)
        else if !PrivateFilename(j.file, CANDIDATE_PREFIX) then Err(InvalidMetadata)
        else match ReadPayload(files, j.file)
          case Err(e) => Err(e)
          case Ok(bytes) => if Digest(bytes) != j.digest then Err(CorruptJournal) else Ok(Some(LoadedJournal(j, bytes)))
  }

  /** `None` exactly when a new operation may start. */
  function StatusError(owner: Identity, files: Files): (r: Option<StoreError>)
  {
    var journal, base := SchemaOf(files, JOURNAL_METADATA, CorruptJournal), SchemaOf(files, BASE_METADATA, CorruptBase);
    if journal.Err? then Some(journal.error)
    else if base.Err? then Some(base.error)
    else if journal.value == Unsupported || base.value == Unsupported then Some(ActiveJournal)
    else if journal.value == Current && StoredJournal(owner, files).Err? then Some(StoredJournal(owner, files).error)
    else if base.value == Current && StoredBase(owner, files).Err? then Some(StoredBase(owner, files).error)
    else if journal.value == Current then Some(ActiveJournal)
    else None
  }

  // ---------------------------------------------------------------- names never clash

  /** A name that nothing in the directory has or refers to: a random UUID makes one. */
  predicate Fresh(files: Files, name: string)
  {
    && name !in files
    && (BASE_METADATA in files && files[BASE_METADATA].BaseJson? ==> files[BASE_METADATA].base.file != name)
    && (JOURNAL_METADATA in files && files[JOURNAL_METADATA].JournalJson? ==>
          files[JOURNAL_METADATA].record.file != name)
  }

  /** The three name spaces are disjoint, so removing a payload never touches metadata or the other payload. */
  lemma NamesDisjoint(name: string)
    ensures StartsWith(name, BASE_PREFIX) ==>
              name != BASE_METADATA && name != JOURNAL_METADATA && !StartsWith(name, CANDIDATE_PREFIX)
    ensures StartsWith(name, CANDIDATE_PREFIX) ==>
              name != BASE_METADATA && name != JOURNAL_METADATA && !StartsWith(name, BASE_PREFIX)
  {
    if StartsWith(name, BASE_PREFIX) {
      assert name[..5][4] == '-';
      assert name[4] == '-';
      assert BASE_METADATA[4] == '.' && JOURNAL_METADATA[4] == 'n';
      assert name[..5][0] == 'b';
    }
    if StartsWith(name, CANDIDATE_PREFIX) {
      assert name[..10][0] == 'c';
      assert name[0] == 'c' && BASE_METADATA[0] == 'b' && JOURNAL_METADATA[0] == 'j';
    }
  }

  /** Loading BASE looks at its metadata and one payload. */
  predicate SameBaseView(a: Files, b: Files)
  {
    && (BASE_METADATA in a <==> BASE_METADATA in b)
    && (BASE_METADATA in a ==> a[BASE_METADATA] == b[BASE_METADATA])
    && (BASE_METADATA in a && a[BASE_METADATA].BaseJson? && StartsWith(a[BASE_METADATA].base.file, BASE_PREFIX) ==>
          var f := a[BASE_METADATA].base.file; (f in a <==> f in b) && (f in a ==> a[f] == b[f]))
  }

  predicate SameJournalView(a: Files, b: Files)
  {
    && (JOURNAL_METADATA in a <==> JOURNAL_METADATA in b)
    && (JOURNAL_METADATA in a ==> a[JOURNAL_METADATA] == b[JOURNAL_METADATA])
    && (JOURNAL_METADATA in a && a[JOURNAL_METADATA].JournalJson? && StartsWith(a[JOURNAL_METADATA].record.file, CANDIDATE_PREFIX) ==>
          var f := a[JOURNAL_METADATA].record.file; (f in a <==> f in b) && (f in a ==> a[f] == b[f]))
  }

  lemma SameViews(owner: Identity, a: Files, b: Files)
    ensures SameBaseView(a, b) ==> StoredBase(owner, a) == StoredBase(owner, b)
    ensures SameJournalView(a, b) ==> StoredJournal(owner, a) == StoredJournal(owner, b)
  {
  }

  // ---------------------------------------------------------------- writing BASE

  /** The directory after each durable step of an operation, and its error, if any. */
  datatype Steps = Steps(states: seq<Files>, error: Option<StoreError>)

  function BaseName(id: string): (name: string)
  {
    BASE_PREFIX + id + ".kdbx"
  }

  function CandidateName(id: string): (name: string)
  {
    CANDIDATE_PREFIX + id + ".kdbx"
  }

  predicate Identifier(id: string)
  {
    '/' !in id
  }

  lemma NamesPrivate(id: string)
    requires Identifier(id)
    ensures PrivateFilename(BaseName(id), BASE_PREFIX) && PrivateFilename(CandidateName(id), CANDIDATE_PREFIX)
  {
    var b, c := BaseName(id), CandidateName(id);
    assert b[..5] == BASE_PREFIX && b[|b| - 5..] == ".kdbx";
    assert c[..10] == CANDIDATE_PREFIX && c[|c| - 5..] == ".kdbx";
  }

  function RemoveIfFile(files: Files, name: string): (r: Result<Files>)
  {
    if name in files && files[name].NotRegular? then Err(InvalidMetadata) else Ok(files - {name})
  }

  function WriteBaseSteps(owner: Identity, files: Files, id: string, bytes: Ciphertext, revision: nat): (r: Steps)
  {
    var name := BaseName(id);
    var written := files[name := Payload(bytes)];
    var prior := ReadBaseRecord(written);
    if prior.Err? then Steps([files, written], Some(prior.error))
    else
      var linked := written[BASE_METADATA := BaseJson(BaseRecord(SCHEMA_VERSION, owner, name, Digest(bytes), revision))];
      if prior.value.Some? && prior.value.value.file != name && PrivateFilename(prior.value.value.file, BASE_PREFIX) then
        var removed := RemoveIfFile(linked, prior.value.value.file);
        if removed.Err? then Steps([files, written, linked], Some(removed.error))
        else Steps([files, written, linked, removed.value], None)
      else Steps([files, written, linked], None)
  }

  /** Stop `write_base` anywhere: BASE loads as before, whatever that was, until the metadata is
      replaced, and from then on it is exactly the new BASE. The journal is never affected. */
  lemma BaseWriteAtomic(owner: Identity, files: Files, id: string, bytes: Ciphertext, revision: nat, k: nat)
    requires Identifier(id) && Fresh(files, BaseName(id))
    requires k < |WriteBaseSteps(owner, files, id, bytes, revision).states|
    ensures
      var now := WriteBaseSteps(owner, files, id, bytes, revision).states[k];
      && StoredBase(owner, now) == (if k < 2 then StoredBase(owner, files) else Ok(Some(BaseState(bytes, revision))))
      && StoredJournal(owner, now) == StoredJournal(owner, files)
  {
    var steps := WriteBaseSteps(owner, files, id, bytes, revision);
    var name := BaseName(id);
    NamesPrivate(id);
    NamesDisjoint(name);
    var prior := ReadBaseRecord(files);
    if prior.Ok? && prior.value.Some? {
      NamesDisjoint(prior.value.value.file);
    }
    SameViews(owner, files, steps.states[k]);
    if k < 2 {
      assert SameBaseView(files, steps.states[k]) && SameJournalView(files, steps.states[k]);
    } else {
      assert steps.states[k][BASE_METADATA].base == BaseRecord(SCHEMA_VERSION, owner, name, Digest(bytes), revision);
      assert steps.states[k][name] == Payload(bytes);
      if JOURNAL_METADATA in files && files[JOURNAL_METADATA].JournalJson? {
        NamesDisjoint(files[JOURNAL_METADATA].record.file);
      }
      assert SameJournalView(files, steps.states[k]);
    }
  }

  /** A finished write leaves exactly one payload behind: the new one replaces the old one. */
  lemma BaseWriteLeavesNoOrphan(owner: Identity, files: Files, id: string, bytes: Ciphertext, revision: nat)
    requires Identifier(id) && Fresh(files, BaseName(id)) && StoredBase(owner, files).Ok?
    ensures
      var steps := WriteBaseSteps(owner, files, id, bytes, revision);
      var prior := ReadBaseRecord(files);
      && steps.error.None? && prior.Ok?
      && steps.states[|steps.states| - 1].Keys ==
           files.Keys - (if prior.value.Some? then {prior.value.value.file} else {}) + {BaseName(id), BASE_METADATA}
  {
    NamesPrivate(id);
    NamesDisjoint(BaseName(id));
    var prior := ReadBaseRecord(files);
    if prior.value.Some? {
      NamesDisjoint(prior.value.value.file);
    }
  }

  // ---------------------------------------------------------------- the journal

  function PrepareSteps(owner: Identity, files: Files, id: string, op: nat, source: nat, expectedLocal: Digest,
                        expectedRemote: Option<nat>, candidate: Ciphertext): (r: Steps)
  {
    if StatusError(owner, files).Some? then Steps([files], StatusError(owner, files))
    else if source != owner.source then Steps([files], Some(WrongSource))
    else
      var name := CandidateName(id);
      var written := files[name := Payload(candidate)];
      var record := JournalRecord(SCHEMA_VERSION, owner, op, Prepared, expectedLocal, expectedRemote, name,
                                  Digest(candidate), None);
      Steps([files, written, written[JOURNAL_METADATA := JournalJson(record)]], None)
  }

  /** Stop `prepare_journal` anywhere: there is no journal, or the whole new one with its candidate. */
  lemma PrepareAtomic(owner: Identity, files: Files, id: string, op: nat, source: nat, expectedLocal: Digest,
                      expectedRemote: Option<nat>, candidate: Ciphertext, k: nat)
    requires Identifier(id) && Fresh(files, CandidateName(id))
    requires k < |PrepareSteps(owner, files, id, op, source, expectedLocal, expectedRemote, candidate).states|
    ensures
      var now := PrepareSteps(owner, files, id, op, source, expectedLocal, expectedRemote, candidate).states[k];
      && StoredBase(owner, now) == StoredBase(owner, files)
      && (k < 2 ==> StoredJournal(owner, now) == StoredJournal(owner, files))
      && (k == 2 ==>
            && StoredJournal(owner, files) == Ok(None)
            && StoredJournal(owner, now) == Ok(Some(LoadedJournal(
                 JournalRecord(SCHEMA_VERSION, owner, op, Prepared, expectedLocal, expectedRemote,
                                CandidateName(id), Digest(candidate), None),
                 candidate))))
  {
    var steps := PrepareSteps(owner, files, id, op, source, expectedLocal, expectedRemote, candidate);
    NamesPrivate(id);
    NamesDisjoint(CandidateName(id));
    SameViews(owner, files, steps.states[k]);
    if BASE_METADATA in files && files[BASE_METADATA].BaseJson? {
      NamesDisjoint(files[BASE_METADATA].base.file);
    }
    assert BASE_METADATA[0] != JOURNAL_METADATA[0];
    assert SameBaseView(files, steps.states[k]);
  }

  function MarkSteps(files: Files, record: JournalRecord): (r: Steps)
  {
    var current := ReadJournalRecord(files);
    if current.Err? then Steps([files], Some(current.error))
    else if current.value.Some? && current.value.value.op != record.op then Steps([files], Some(ActiveJournal))
    else Steps([files, files[JOURNAL_METADATA := JournalJson(record)]], None)
  }

  /** A phase change replaces the record and keeps the candidate. */
  lemma MarkAtomic(owner: Identity, files: Files, loaded: LoadedJournal, phase: Phase, committed: Option<nat>)
    requires StoredJournal(owner, files) == Ok(Some(loaded))
    ensures
      var record := loaded.record.(phase := phase, committed := committed);
      var steps := MarkSteps(files, record);
      && steps.error.None? && |steps.states| == 2
      && StoredJournal(owner, steps.states[1]) == Ok(Some(loaded.(record := record)))
      && StoredBase(owner, steps.states[1]) == StoredBase(owner, files)
  {
    var record := loaded.record.(phase := phase, committed := committed);
    var marked := files[JOURNAL_METADATA := JournalJson(record)];
    NamesDisjoint(record.file);
    assert BASE_METADATA[0] != JOURNAL_METADATA[0];
    if BASE_METADATA in files && files[BASE_METADATA].BaseJson? {
      NamesDisjoint(files[BASE_METADATA].base.file);
    }
    assert SameBaseView(files, marked);
    SameViews(owner, files, marked);
  }

  function RemoveSteps(owner: Identity, files: Files, record: JournalRecord): (r: Steps)
  {
    var current := StoredJournal(owner, files);
    if current.Err? then Steps([files], Some(current.error))
    else if current.value.None? || current.value.value.record.op != record.op then Steps([files], Some(InvalidMetadata))
    else
      var dropped := files - {JOURNAL_METADATA};
      var removed := RemoveIfFile(dropped, record.file);
      if removed.Err? then Steps([files, dropped], Some(removed.error)) else Steps([files, dropped, removed.value], None)
  }

  /** Stop `remove_journal` anywhere: the whole journal is there, or none is. */
  lemma RemoveAtomic(owner: Identity, files: Files, record: JournalRecord, k: nat)
    requires StartsWith(record.file, CANDIDATE_PREFIX) && k < |RemoveSteps(owner, files, record).states|
    ensures
      var now := RemoveSteps(owner, files, record).states[k];
      && StoredBase(owner, now) == StoredBase(owner, files)
      && StoredJournal(owner, now) == (if k == 0 then StoredJournal(owner, files) else Ok(None))
  {
    var now := RemoveSteps(owner, files, record).states[k];
    NamesDisjoint(record.file);
    assert BASE_METADATA[0] != JOURNAL_METADATA[0];
    if BASE_METADATA in files && files[BASE_METADATA].BaseJson? {
      NamesDisjoint(files[BASE_METADATA].base.file);
    }
    assert SameBaseView(files, now);
    SameViews(owner, files, now);
  }

  // ---------------------------------------------------------------- the store

  /** Neither metadata nor a payload of this profile. */
  predicate Foreign(files: Files, name: string, ciphertextName: string -> bool)
    requires name in files
  {
    files[name].NotRegular? || (name != BASE_METADATA && name != JOURNAL_METADATA && !ciphertextName(name))
  }

  /** A profile's directory; `fuse` counts the durable writes left before the machine stops. */
  class SyncStore {
    const owner: Identity
    var files: Files
    var fuse: nat

    constructor (owner: Identity, files: Files, fuse: nat)
      ensures this.owner == owner && this.files == files && this.fuse == fuse
    {
      this.owner, this.files, this.fuse := owner, files, fuse;
    }

    method AtomicWrite(name: string, file: File) returns (alive: bool)
      modifies this`files, this`fuse
      ensures alive == (old(fuse) > 0) && fuse == (if alive then old(fuse) - 1 else old(fuse))
      ensures files == if alive then old(files)[name := file] else old(files)
    {
      alive := fuse > 0;
      if alive {
        files, fuse := files[name := file], fuse - 1;
      }
    }

    method Remove(name: string) returns (alive: bool, error: Option<StoreError>)
      modifies this`files, this`fuse
      ensures RemoveIfFile(old(files), name).Err? ==>
                alive && error == Some(InvalidMetadata) && files == old(files) && fuse == old(fuse)
      ensures RemoveIfFile(old(files), name).Ok? ==>
                && error.None? && alive == (old(fuse) > 0) && fuse == (if alive then old(fuse) - 1 else old(fuse))
                && files == if alive then RemoveIfFile(old(files), name).value else old(files)
    {
      if name in files && files[name].NotRegular? {
        return true, Some(InvalidMetadata);
      }
      alive, error := fuse > 0, None;
      if alive {
        files, fuse := files - {name}, fuse - 1;
      }
    }

    /** `write_base`, stopped after `fuse` durable writes or run to its end. */
    method WriteBase(id: string, bytes: Ciphertext, revision: nat) returns (error: Option<StoreError>)
      modifies this`files, this`fuse
      ensures var steps := WriteBaseSteps(owner, old(files), id, bytes, revision);
              if old(fuse) < |steps.states| - 1 then files == steps.states[old(fuse)]
              else files == steps.states[|steps.states| - 1] && error == steps.error
    {
      var name := BaseName(id);
      var alive := AtomicWrite(name, Payload(bytes));
      if !alive { return None; }
      var metadata := BaseRecord(SCHEMA_VERSION, owner, name, Digest(bytes), revision);
      var prior := ReadBaseRecord(files);
      if prior.Err? { return Some(prior.error); }
      alive := AtomicWrite(BASE_METADATA, BaseJson(metadata));
      if !alive { return None; }
      if prior.value.Some? && prior.value.value.file != metadata.file && PrivateFilename(prior.value.value.file, BASE_PREFIX) {
        alive, error := Remove(prior.value.value.file);
        return;
      }
      error := None;
    }

    /** `remove_journal`, likewise. */
    method RemoveJournal(record: JournalRecord) returns (error: Option<StoreError>)
      modifies this`files, this`fuse
      ensures var steps := RemoveSteps(owner, old(files), record);
              if old(fuse) < |steps.states| - 1 then files == steps.states[old(fuse)]
              else files == steps.states[|steps.states| - 1] && error == steps.error
    {
      var current := StoredJournal(owner, files);
      if current.Err? { return Some(current.error); }
      if current.value.None? || current.value.value.record.op != record.op { return Some(InvalidMetadata); }
      var alive;
      alive, error := Remove(JOURNAL_METADATA);
      if !alive || error.Some? { return; }
      alive, error := Remove(record.file);
    }

    /** `prepare_journal`, likewise. */
    method PrepareJournal(id: string, op: nat, source: nat, expectedLocal: Digest, expectedRemote: Option<nat>,
                          candidate: Ciphertext)
      returns (error: Option<StoreError>)
      modifies this`files, this`fuse
      ensures var steps := PrepareSteps(owner, old(files), id, op, source, expectedLocal, expectedRemote, candidate);
              if old(fuse) < |steps.states| - 1 then files == steps.states[old(fuse)]
              else files == steps.states[|steps.states| - 1] && error == steps.error
    {
      error := StatusError(owner, files);
      if error.Some? { return; }
      if source != owner.source { return Some(WrongSource); }
      var name := CandidateName(id);
      var alive := AtomicWrite(name, Payload(candidate));
      if !alive { return None; }
      var record := JournalRecord(SCHEMA_VERSION, owner, op, Prepared, expectedLocal, expectedRemote, name,
                                  Digest(candidate), None);
      alive := AtomicWrite(JOURNAL_METADATA, JournalJson(record));
      error := None;
    }

    /** `mark_remote_committed` and `mark_local_committed`, likewise. */
    method MarkJournal(record: JournalRecord, phase: Phase, committed: Option<nat>)
      returns (marked: JournalRecord, error: Option<StoreError>)
      modifies this`files, this`fuse
      ensures marked == record.(phase := phase, committed := if committed.Some? then committed else record.committed)
      ensures var steps := MarkSteps(old(files), marked);
              if old(fuse) < |steps.states| - 1 then files == steps.states[old(fuse)]
              else files == steps.states[|steps.states| - 1] && error == steps.error
    {
      marked := record.(phase := phase);
      if committed.Some? {
        marked := marked.(committed := committed);
      }
      error := None;
      var current := ReadJournalRecord(files);
      if current.Err? {
        error := Some(current.error);
      } else if current.value.Some? && current.value.value.op != marked.op {
        error := Some(ActiveJournal);
      } else {
        var alive := AtomicWrite(JOURNAL_METADATA, JournalJson(marked));
      }
    }

    /** `reset_state` over any listing of the directory: it refuses a directory that holds anything
        foreign, drops the metadata before any payload, and so never leaves metadata that names a
        payload it deleted. */
    method ResetState(listing: seq<string>, ciphertextName: string -> bool) returns (error: Option<StoreError>)
      requires forall name :: name in listing <==> name in files
      requires forall name :: ciphertextName(name) ==>
                 StartsWith(name, BASE_PREFIX) || StartsWith(name, CANDIDATE_PREFIX)
      modifies this`files, this`fuse
      ensures error.Some? <==> exists name :: name in old(files) && Foreign(old(files), name, ciphertextName)
      ensures error.Some? ==> files == old(files)
      ensures StoredJournal(owner, files) == old(StoredJournal(owner, files)) || StoredJournal(owner, files) == Ok(None)
      ensures StoredBase(owner, files) == old(StoredBase(owner, files)) || StoredBase(owner, files) == Ok(None)
      ensures error.None? && old(fuse) >= |listing| + 2 ==> files == map[]
    {
      var i := 0;
      var doomed: seq<string> := [];
      while i < |listing|
        invariant 0 <= i <= |listing| && files == old(files) && fuse == old(fuse)
        invariant forall k :: 0 <= k < i ==> listing[k] in files && !files[listing[k]].NotRegular?
        invariant forall k :: 0 <= k < i ==>
                    listing[k] in {BASE_METADATA, JOURNAL_METADATA} || ciphertextName(listing[k])
        invariant forall k :: 0 <= k < i ==> listing[k] in {BASE_METADATA, JOURNAL_METADATA} || listing[k] in doomed
        invariant forall name :: name in doomed ==> ciphertextName(name) && name in files
        invariant |doomed| <= i
      {
        var name := listing[i];
        assert name in listing;
        ghost var foreign := Foreign(files, name, ciphertextName);
        if files[name].NotRegular? { return Some(InvalidMetadata); }
        if name != BASE_METADATA && name != JOURNAL_METADATA {
          if !ciphertextName(name) { return Some(InvalidMetadata); }
          doomed := doomed + [name];
        }
        i := i + 1;
      }
      error := Discard(doomed);
    }

    method Discard(doomed: seq<string>) returns (error: Option<StoreError>)
      requires forall name :: name in files ==> !files[name].NotRegular?
      requires forall name :: name in doomed ==> StartsWith(name, BASE_PREFIX) || StartsWith(name, CANDIDATE_PREFIX)
      requires forall name :: name in files ==> name in {BASE_METADATA, JOURNAL_METADATA} || name in doomed
      modifies this`files, this`fuse
      ensures error.None?
      ensures StoredJournal(owner, files) == old(StoredJournal(owner, files)) || StoredJournal(owner, files) == Ok(None)
      ensures StoredBase(owner, files) == old(StoredBase(owner, files)) || StoredBase(owner, files) == Ok(None)
      ensures old(fuse) >= |doomed| + 2 ==> files == map[]
    {
      var alive;
      alive, error := Remove(JOURNAL_METADATA);
      if !alive { return; }
      BaseWithoutJournal(owner, old(files));
      alive, error := Remove(BASE_METADATA);
      if !alive { return; }
      var i := 0;
      while i < |doomed|
        invariant 0 <= i <= |doomed| && error.None?
        invariant BASE_METADATA !in files && JOURNAL_METADATA !in files
        invariant forall name :: name in files ==>
                    name in old(files) && files[name] == old(files)[name] && name !in doomed[..i]
        invariant old(fuse) >= |doomed| + 2 ==> fuse >= |doomed| - i
      {
        alive, error := Remove(doomed[i]);
        if !alive { return; }
        i := i + 1;
      }
      assert doomed[..i] == doomed;
    }
  }

  lemma BaseWithoutJournal(owner: Identity, files: Files)
    ensures StoredBase(owner, files - {JOURNAL_METADATA}) == StoredBase(owner, files)
  {
    assert BASE_METADATA[0] != JOURNAL_METADATA[0];
    if BASE_METADATA in files && files[BASE_METADATA].BaseJson? {
      NamesDisjoint(files[BASE_METADATA].base.file);
    }
    assert SameBaseView(files, files - {JOURNAL_METADATA});
    SameViews(owner, files, files - {JOURNAL_METADATA});
  }
}
