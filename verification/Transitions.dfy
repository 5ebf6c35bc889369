/** When each transition of the installed record goes through, and every field of what it writes
    (sdk/go/installed_storage.go). Begin has module Retries. */
module Transitions {
  import opened Common
  import opened Text
  import opened Storage
  import opened Clock
  import opened Access
  import opened InstalledRecord
  import opened RecordRuns

  /** Only cached authority differs: no offline token, while the file's sequence and marks stay. */
  predicate TokenCleared(r: Record, t: Record) {
    if r.offline.None? then t.offline.None?
    else
      && t.offline.Some? && t.offline.value.jws.None? && t.offline.value.sequence == r.offline.value.sequence
      && t.offline.value.issuanceID == r.offline.value.issuanceID
      && t.offline.value.contentDigest == r.offline.value.contentDigest
      && t.offline.value.verifiedAt == r.offline.value.verifiedAt
      && t.offline.value.timeHighWater == r.offline.value.timeHighWater
      && t.offline.value.wallHighWater == r.offline.value.wallHighWater
  }

  /** The record's identity stays; a commit also brings the binding that was verified. */
  predicate SameHome(r: Record, t: Record) {
    t.scope == r.scope && t.provider == r.provider && t.installation.id == r.installation.id
  }

  predicate Committed(r: Record, c: StoredCredential, t: Record) {
    && SameHome(r, t) && TokenCleared(r, t) && t.generation == r.generation && t.pending.None?
    && t.installation.fingerprint == c.fingerprint && t.installation.provider == c.fingerprintProvider
    && t.credential.Some? && t.credential.value.activationID == c.activationID
    && t.credential.value.licenceID == c.licenceID && t.credential.value.bearer == c.credential
    && t.credential.value.expiresAt == (if c.credentialExpiresAt == 0 then None else Some(c.credentialExpiresAt))
  }

  /** A commit goes through exactly at the version it was built for: at the one a begin returned, nothing being pending any
      more afterwards, or at the one a validation found. */
  lemma CommitsGoThroughIff(r: Record, version: nat, c: StoredCredential, access: CachedAccess)
    ensures var e, f := CommitEdit(r, version, c, access), CommitCredentialEdit(r, version, c);
            if version == r.generation then
              && e.Put? && Committed(r, c, e.record) && e.record.access == Some(access)
              && f.Put? && Committed(r, c, f.record) && f.record.access.None?
            else e == f == Decline(StaleVersion)
  {}

  lemma CommitAnswersBegin(r: Record, op: Op, version: nat, c: StoredCredential, access: CachedAccess)
    requires op.Begin? && EditFor(r, op).Put?
    ensures var t := Stamped(EditFor(r, op).record);
            CommitEdit(t, version, c, access).Put? <==> version == r.generation + 1
    ensures CommitEdit(r, r.generation + 1, c, access) == Decline(StaleVersion)
  {}

  lemma InvalidationGoesThroughIff(r: Record, clearPending: bool, clearCredential: bool)
    ensures var e := InvalidateEdit(r, clearPending, clearCredential);
            if r.generation == MAX_INT64 then e == Decline(StorageFailed)
            else
              && e.Put? && SameHome(r, e.record) && TokenCleared(r, e.record) && e.record.generation == r.generation + 1
              && e.record.access.None? && e.record.installation == r.installation
              && e.record.credential == (if clearCredential then None else r.credential)
              && e.record.pending == (if clearPending then None else r.pending)
  {}

  /** Another machine loses everything but scope and provider; the same one is left alone. */
  lemma RebindingGoesThroughIff(r: Record, fingerprint: Option<Text>, provider: Option<Text>, newID: Text)
    ensures var e := RebindEdit(r, fingerprint, provider, newID);
            if r.installation.fingerprint == fingerprint && r.installation.provider == provider then e == Check
            else if r.generation == MAX_INT64 then e == Decline(StorageFailed)
            else e == Put(Record(r.format, r.provider, r.scope, Identity(newID, fingerprint, provider),
              r.generation + 1, None, None, None, None))
  {}

  lemma CacheIsDropped(r: Record)
    ensures DropCacheEdit(r) == if r.access.Some? then Put(r.(access := None)) else Check
  {}

  /** A checkpoint of cached access goes through exactly if neither mark would fall or pass the year 9999 and the marks
      have kept step since the grant was received; it moves the two marks and nothing else. */
  lemma CheckpointGoesThroughIff(r: Record, server: int, wall: int)
    ensures var e := CheckpointEdit(r, server, wall);
            if r.access.None? then e == Check
            else
              var a := r.access.value;
              var drift := (server - a.receivedServer) - (wall - a.receivedWall);
              && (e.Put? <==> a.serverHighWater <= server <= LAST_SECOND && a.wallHighWater <= wall <= LAST_SECOND
                              && -30 <= drift <= 30)
              && (e.Put? ==> e.record == r.(access := Some(CachedAccess(a.jws, a.licenceExpiresAt, a.receivedServer,
                    a.receivedWall, server, wall))))
              && (!e.Put? ==> e == Decline(BadClock))
  {}

  /** A file is saved exactly at the present version, unless it is behind the one saved last, is another issue of the same
      sequence, or the generation has reached its last value; everything else on the record goes. */
  lemma SavingGoesThroughIff(r: Record, version: nat, o: OfflineRecord)
    ensures var e := SaveOfflineEdit(r, version, o);
            var forward := r.offline.Some? ==>
                var p := r.offline.value;
                && p.timeHighWater <= o.timeHighWater && p.wallHighWater <= o.wallHighWater
                && (p.sequence < o.sequence
                    || (p.sequence == o.sequence && p.issuanceID == o.issuanceID && p.contentDigest == o.contentDigest));
            e == (if version != r.generation then Decline(StaleVersion)
                  else if !forward then Decline(OfflineSequence)
                  else if r.generation == MAX_INT64 then Decline(StorageFailed)
                  else Put(Record(r.format, r.provider, r.scope, r.installation, r.generation + 1, None, None, None,
                    Some(o))))
  {}

  /** A file's checkpoint goes through exactly for the file that is saved, with marks that do not fall. */
  lemma FileCheckpointGoesThroughIff(r: Record, o: OfflineRecord)
    ensures var e := CheckpointOfflineEdit(r, o);
            var same := r.offline.Some? && r.offline.value.jws.Some?
              && o == r.offline.value.(timeHighWater := o.timeHighWater, wallHighWater := o.wallHighWater)
              && r.offline.value.timeHighWater <= o.timeHighWater && r.offline.value.wallHighWater <= o.wallHighWater;
            e == if same then Put(r.(offline := Some(o))) else Decline(StaleVersion)
  {}

  /** What goes through is on the object exactly if the object was neither closed nor spoilt, the files answer, the record
      fits and the replacement succeeds; a replacement that fails spoils the object, anything else leaves it as it was. */
  lemma WrittenIff(s: Held, r: Record, io: IO)
    ensures var (t, failure) := Apply(s, Put(r), io);
            var reaches := !s.closed && !s.poisoned && io.checks && io.fits;
            && (failure.None? <==> reaches && io.writes)
            && (failure.Some? ==> failure == Some(StorageFailed))
            && t == (if reaches && io.writes then
                       Held(r.(format := if r.offline.None? then 2 else 3), false, false)
                     else if reaches then s.(poisoned := true) else s)
    ensures Apply(s, Check, io) == (s, if !s.closed && !s.poisoned && io.checks then None else Some(StorageFailed))
  {}
}
