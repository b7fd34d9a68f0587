/** When the profile directory is believed: exactly which directories load as a BASE or as a journal,
    which error each other directory gives, and when an operation on the directory is refused. */
module StoreLaws {
  import opened Vault
  import opened SyncProtocol
  import opened BaseStore

  // ---------------------------------------------------------------- file names

  /** A prefix, anything within one path component, and a known suffix. */
  ghost predicate Named(name: string, prefix: string)
  {
    exists id :: '/' !in id && (name == prefix + id + ".kdbx" || name == prefix + id + ".json")
  }

  lemma PrivateNamesExactly(name: string, prefix: string)
    requires prefix == BASE_PREFIX || prefix == CANDIDATE_PREFIX
    ensures PrivateFilename(name, prefix) <==> Named(name, prefix)
  {
    if PrivateFilename(name, prefix) {
      PrivateIsNamed(name, prefix);
    }
    if Named(name, prefix) {
      var id :| '/' !in id && (name == prefix + id + ".kdbx" || name == prefix + id + ".json");
      NamedIsPrivate(prefix, id, if name == prefix + id + ".kdbx" then ".kdbx" else ".json");
    }
  }

  lemma NamedIsPrivate(prefix: string, id: string, suffix: string)
    requires '/' !in prefix && '/' !in id && (suffix == ".kdbx" || suffix == ".json")
    ensures PrivateFilename(prefix + id + suffix, prefix)
  {
    var name := prefix + id + suffix;
    assert name[..|prefix|] == prefix && name[|name| - 5..] == suffix;
  }

  lemma PrivateIsNamed(name: string, prefix: string)
    requires prefix == BASE_PREFIX || prefix == CANDIDATE_PREFIX
    requires PrivateFilename(name, prefix)
    ensures Named(name, prefix)
  {
    var n := |name| - 5;
    var suffix := name[n..];
    assert suffix == ".kdbx" || suffix == ".json";
    assert name[n] == suffix[0] == '.';
    assert n >= |prefix| by {
      assert forall i :: 0 <= i < |prefix| ==> name[i] == prefix[i] && prefix[i] != '.';
    }
    var id := name[|prefix|..n];
    assert name == prefix + id + suffix;
  }

  // ---------------------------------------------------------------- what the metadata says

  /** The bytes that reading the file gives; bytes that are not ciphertext are never a vault. */
  ghost predicate Reads(files: Files, name: string, bytes: Ciphertext)
  {
    && name in files && !files[name].NotRegular?
    && bytes == if files[name].Payload? then files[name].bytes else Garbage(0)
  }

  /** The metadata file is JSON that names a schema. */
  ghost predicate SchemaNamed(files: Files, name: string, schema: nat)
  {
    name in files && match files[name]
                     case BaseJson(b) => b.schema == schema
                     case JournalJson(j) => j.schema == schema
                     case OtherJson(v) => v == schema
                     case _ => false
  }

  ghost predicate CurrentBase(files: Files, b: BaseRecord)
  {
    BASE_METADATA in files && files[BASE_METADATA] == BaseJson(b) && b.schema == 2
  }

  ghost predicate CurrentJournal(files: Files, j: JournalRecord)
  {
    JOURNAL_METADATA in files && files[JOURNAL_METADATA] == JournalJson(j) && j.schema == 2
  }

  // ---------------------------------------------------------------- BASE

  /** The directory holds `s` for `owner`: current metadata of this profile, source and target that names
      a private file, whose bytes have the recorded digest. */
  ghost predicate HoldsBase(owner: Identity, files: Files, s: BaseState)
  {
    exists b :: CurrentBase(files, b) && b.owner == owner && Named(b.file, "base-") && Reads(files, b.file, s.bytes)
                && b.digest == Digest(s.bytes) && b.revision == s.revision
  }

  /** BASE loads if and only if the directory holds it. */
  lemma BaseLoadsExactly(owner: Identity, files: Files, s: BaseState)
    ensures StoredBase(owner, files) == Ok(Some(s)) <==> HoldsBase(owner, files, s)
  {
    if BASE_METADATA in files && files[BASE_METADATA].BaseJson? {
      PrivateNamesExactly(files[BASE_METADATA].base.file, BASE_PREFIX);
    }
    if StoredBase(owner, files) == Ok(Some(s)) {
      assert CurrentBase(files, files[BASE_METADATA].base);
    }
  }

  /** There is no BASE if and only if there is no metadata; never because of what it says. */
  lemma NoBaseExactly(owner: Identity, files: Files)
    ensures StoredBase(owner, files) == Ok(None) <==> BASE_METADATA !in files
  {
  }

  /** Each refusal has its own cause. */
  lemma BaseRefusedExactly(owner: Identity, files: Files)
    ensures StoredBase(owner, files) == Err(UnsupportedSchema) <==>
              exists v :: SchemaNamed(files, BASE_METADATA, v) && v != 2
    ensures StoredBase(owner, files) == Err(WrongProfile) <==>
              exists b :: CurrentBase(files, b) && b.owner.profile != owner.profile
    ensures StoredBase(owner, files) == Err(WrongSource) <==>
              exists b :: CurrentBase(files, b) && b.owner.profile == owner.profile && b.owner.source != owner.source
    ensures StoredBase(owner, files) == Err(WrongTarget) <==>
              exists b :: CurrentBase(files, b) && b.owner == owner.(target := b.owner.target) && b.owner.target != owner.target
  {
    if BASE_METADATA in files {
      assert files[BASE_METADATA].BaseJson? ==> SchemaNamed(files, BASE_METADATA, files[BASE_METADATA].base.schema);
      assert files[BASE_METADATA].JournalJson? ==> SchemaNamed(files, BASE_METADATA, files[BASE_METADATA].record.schema);
      assert files[BASE_METADATA].OtherJson? ==> SchemaNamed(files, BASE_METADATA, files[BASE_METADATA].schemaVersion);
      assert files[BASE_METADATA].BaseJson? && files[BASE_METADATA].base.schema == 2 ==>
               CurrentBase(files, files[BASE_METADATA].base);
    }
  }

  lemma BasePayloadRefusedExactly(owner: Identity, files: Files)
    ensures StoredBase(owner, files) == Err(InvalidMetadata) <==>
              exists b :: CurrentBase(files, b) && b.owner == owner
                          && (!Named(b.file, "base-") || (b.file in files && files[b.file].NotRegular?))
    ensures StoredBase(owner, files) == Err(Io) <==>
              exists b :: CurrentBase(files, b) && b.owner == owner && Named(b.file, "base-") && b.file !in files
    ensures StoredBase(owner, files) == Err(CorruptBase) <==>
              || (BASE_METADATA in files && forall v :: !SchemaNamed(files, BASE_METADATA, v))
              || (SchemaNamed(files, BASE_METADATA, 2) && !files[BASE_METADATA].BaseJson?)
              || exists b, bytes :: CurrentBase(files, b) && b.owner == owner && Named(b.file, "base-")
                                    && Reads(files, b.file, bytes) && b.digest != Digest(bytes)
  {
    if BASE_METADATA in files && files[BASE_METADATA].BaseJson? {
      var b := files[BASE_METADATA].base;
      PrivateNamesExactly(b.file, BASE_PREFIX);
      assert SchemaNamed(files, BASE_METADATA, b.schema);
      if b.schema == 2 {
        assert CurrentBase(files, b);
        if b.file in files && !files[b.file].NotRegular? {
          assert Reads(files, b.file, if files[b.file].Payload? then files[b.file].bytes else Garbage(0));
        }
      }
    } else if BASE_METADATA in files {
      assert files[BASE_METADATA].JournalJson? ==> SchemaNamed(files, BASE_METADATA, files[BASE_METADATA].record.schema);
      assert files[BASE_METADATA].OtherJson? ==> SchemaNamed(files, BASE_METADATA, files[BASE_METADATA].schemaVersion);
    }
  }

  // ---------------------------------------------------------------- the journal

  ghost predicate HoldsJournal(owner: Identity, files: Files, l: LoadedJournal)
  {
    && CurrentJournal(files, l.record) && l.record.owner == owner && Named(l.record.file, "candidate-")
    && Reads(files, l.record.file, l.candidate) && l.record.digest == Digest(l.candidate)
  }

  lemma JournalLoadsExactly(owner: Identity, files: Files, l: LoadedJournal)
    ensures StoredJournal(owner, files) == Ok(Some(l)) <==> HoldsJournal(owner, files, l)
    ensures StoredJournal(owner, files) == Ok(None) <==> JOURNAL_METADATA !in files
  {
    if JOURNAL_METADATA in files && files[JOURNAL_METADATA].JournalJson? {
      PrivateNamesExactly(files[JOURNAL_METADATA].record.file, CANDIDATE_PREFIX);
    }
  }

  lemma JournalRefusedExactly(owner: Identity, files: Files)
    ensures StoredJournal(owner, files) == Err(UnsupportedSchema) <==>
              exists v :: SchemaNamed(files, JOURNAL_METADATA, v) && v != 2
    ensures StoredJournal(owner, files) == Err(WrongProfile) <==>
              exists j :: CurrentJournal(files, j) && j.owner.profile != owner.profile
    ensures StoredJournal(owner, files) == Err(WrongSource) <==>
              exists j :: CurrentJournal(files, j) && j.owner.profile == owner.profile && j.owner.source != owner.source
    ensures StoredJournal(owner, files) == Err(WrongTarget) <==>
              exists j :: CurrentJournal(files, j) && j.owner == owner.(target := j.owner.target) && j.owner.target != owner.target
  {
    if JOURNAL_METADATA in files {
      assert files[JOURNAL_METADATA].BaseJson? ==> SchemaNamed(files, JOURNAL_METADATA, files[JOURNAL_METADATA].base.schema);
      assert files[JOURNAL_METADATA].JournalJson? ==> SchemaNamed(files, JOURNAL_METADATA, files[JOURNAL_METADATA].record.schema);
      assert files[JOURNAL_METADATA].OtherJson? ==> SchemaNamed(files, JOURNAL_METADATA, files[JOURNAL_METADATA].schemaVersion);
      assert files[JOURNAL_METADATA].JournalJson? && files[JOURNAL_METADATA].record.schema == 2 ==>
               CurrentJournal(files, files[JOURNAL_METADATA].record);
    }
  }

  lemma CandidateRefusedExactly(owner: Identity, files: Files)
    ensures StoredJournal(owner, files) == Err(InvalidMetadata) <==>
              exists j :: CurrentJournal(files, j) && j.owner == owner
                          && (!Named(j.file, "candidate-") || (j.file in files && files[j.file].NotRegular?))
    ensures StoredJournal(owner, files) == Err(Io) <==>
              exists j :: CurrentJournal(files, j) && j.owner == owner && Named(j.file, "candidate-") && j.file !in files
    ensures StoredJournal(owner, files) == Err(CorruptJournal) <==>
              || (JOURNAL_METADATA in files && forall v :: !SchemaNamed(files, JOURNAL_METADATA, v))
              || (SchemaNamed(files, JOURNAL_METADATA, 2) && !files[JOURNAL_METADATA].JournalJson?)
              || exists j, bytes :: CurrentJournal(files, j) && j.owner == owner && Named(j.file, "candidate-")
                                    && Reads(files, j.file, bytes) && j.digest != Digest(bytes)
  {
    if JOURNAL_METADATA in files && files[JOURNAL_METADATA].JournalJson? {
      var j := files[JOURNAL_METADATA].record;
      PrivateNamesExactly(j.file, CANDIDATE_PREFIX);
      assert SchemaNamed(files, JOURNAL_METADATA, j.schema);
      if j.schema == 2 {
        assert CurrentJournal(files, j);
        if j.file in files && !files[j.file].NotRegular? {
          assert Reads(files, j.file, if files[j.file].Payload? then files[j.file].bytes else Garbage(0));
        }
      }
    } else if JOURNAL_METADATA in files {
      assert files[JOURNAL_METADATA].BaseJson? ==> SchemaNamed(files, JOURNAL_METADATA, files[JOURNAL_METADATA].base.schema);
      assert files[JOURNAL_METADATA].OtherJson? ==> SchemaNamed(files, JOURNAL_METADATA, files[JOURNAL_METADATA].schemaVersion);
    }
  }

  // ---------------------------------------------------------------- operations that are refused

  /** A new operation may start if and only if there is no journal and BASE is not broken. */
  lemma ReadyExactly(owner: Identity, files: Files)
    ensures StatusError(owner, files) == None <==>
              JOURNAL_METADATA !in files && (BASE_METADATA !in files || exists s :: HoldsBase(owner, files, s))
    ensures (exists l :: HoldsJournal(owner, files, l)) && StoredBase(owner, files).Ok? ==>
              StatusError(owner, files) == Some(ActiveJournal)
    ensures JOURNAL_METADATA !in files && StoredBase(owner, files).Err? ==>
              StatusError(owner, files) ==
                Some(if StoredBase(owner, files).error == UnsupportedSchema then ActiveJournal else StoredBase(owner, files).error)
  {
    NoBaseExactly(owner, files);
    if StoredBase(owner, files).Ok? && StoredBase(owner, files).value.Some? {
      BaseLoadsExactly(owner, files, StoredBase(owner, files).value.value);
    }
    forall s | HoldsBase(owner, files, s) ensures StoredBase(owner, files) == Ok(Some(s)) {
      BaseLoadsExactly(owner, files, s);
    }
    forall l | HoldsJournal(owner, files, l) ensures StoredJournal(owner, files) == Ok(Some(l)) {
      JournalLoadsExactly(owner, files, l);
    }
  }

  /** A journal is prepared if and only if a new operation may start on the profile's own source; a
      refused preparation writes nothing. */
  lemma PrepareRefusedExactly(owner: Identity, files: Files, id: string, op: nat, source: nat, expectedLocal: Digest,
                              expectedRemote: Option<nat>, candidate: Ciphertext)
    ensures var steps := PrepareSteps(owner, files, id, op, source, expectedLocal, expectedRemote, candidate);
            && (steps.error.None? <==> StatusError(owner, files).None? && source == owner.source)
            && (steps.error.None? ==> |steps.states| == 3)
            && (steps.error.Some? ==> steps.states == [files])
            && (StatusError(owner, files).Some? ==> steps.error == StatusError(owner, files))
            && (StatusError(owner, files).None? && source != owner.source ==> steps.error == Some(WrongSource))
  {
  }

  /** A phase is recorded if and only if no other operation's journal and no broken one is there. */
  lemma MarkRefusedExactly(files: Files, record: JournalRecord)
    ensures var steps := MarkSteps(files, record);
            && (steps.error == Some(CorruptJournal) <==>
                  JOURNAL_METADATA in files && !files[JOURNAL_METADATA].JournalJson?)
            && (steps.error == Some(ActiveJournal) <==>
                  && JOURNAL_METADATA in files && files[JOURNAL_METADATA].JournalJson?
                  && files[JOURNAL_METADATA].record.op != record.op)
            && (steps.error.Some? ==> steps.states == [files] && steps.error.value in {CorruptJournal, ActiveJournal})
  {
  }

  /** A journal is removed if and only if it is the one that the directory holds. */
  lemma RemoveRefusedExactly(owner: Identity, files: Files, record: JournalRecord)
    requires StartsWith(record.file, CANDIDATE_PREFIX)
    ensures var steps := RemoveSteps(owner, files, record);
            && (|steps.states| > 1 <==> exists l :: HoldsJournal(owner, files, l) && l.record.op == record.op)
            && (|steps.states| == 1 ==> steps.states == [files] && steps.error.Some?)
            && (steps.error.None? ==>
                  steps.states[|steps.states| - 1] == files - {JOURNAL_METADATA, record.file})
            && ((exists l :: HoldsJournal(owner, files, l) && l.record == record) ==> steps.error.None?)
  {
    NamesDisjoint(record.file);
    var current := StoredJournal(owner, files);
    if current.Ok? && current.value.Some? {
      JournalLoadsExactly(owner, files, current.value.value);
    }
    forall l | HoldsJournal(owner, files, l) ensures current == Ok(Some(l)) {
      JournalLoadsExactly(owner, files, l);
    }
  }
}
