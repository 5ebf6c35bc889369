/** The storage object of an installed client (sdk/go/installed_storage.go). Every method edits a copy of the record and
    replaces it only after the files have taken the copy. */
module InstalledStorage {
  import opened Common
  import opened Text
  import opened Storage
  import opened Clock
  import opened Access
  import opened InstalledRecord

  class InstalledStorage {
    var record: Record
    var poisoned: bool
    var closed: bool

    ghost function State(): Held
      reads this
    {
      Held(record, poisoned, closed)
    }

    constructor (record: Record)
      ensures State() == Held(record, false, false)
    {
      this.record, poisoned, closed := record, false, false;
    }

    method CheckLocked(io: IO) returns (failure: Option<RecordFailure>)
      ensures failure == if Answers(State(), io) then None else Some(StorageFailed)
    {
      return if closed || poisoned || !io.checks then Some(StorageFailed) else None;
    }

    method WriteLocked(r: Record, io: IO) returns (failure: Option<RecordFailure>)
      modifies this
      ensures (State(), failure) == Write(old(State()), r, io)
    {
      failure := CheckLocked(io);
      if failure.Some? { return; }
      var copy := r.(format := if r.offline.None? then 2 else 3);
      if !io.fits { return Some(StorageFailed); }
      if !io.writes {
        poisoned := true;
        return Some(StorageFailed);
      }
      record := copy;
      return None;
    }

    method Load(io: IO) returns (r: Result<(nat, Option<StoredCredential>), RecordFailure>)
      ensures r == if Answers(State(), io) then Ok((record.generation, StoredCredentialOf(record)))
          else Err(StorageFailed)
    {
      var failure := CheckLocked(io);
      if failure.Some? { return Err(failure.value); }
      return Ok((record.generation, StoredCredentialOf(record)));
    }

    method Save(version: nat, c: StoredCredential, io: IO) returns (failure: Option<RecordFailure>)
      modifies this
      ensures (State(), failure) == Apply(old(State()), SaveEdit(old(record), version, c), io)
    {
      if version != record.generation { return Some(StaleVersion); }
      var r := record;
      r := r.(credential := Some(InstalledCredentialFrom(c)), access := None);
      r := ClearOfflineAuthority(r);
      failure := WriteLocked(r, io);
    }

    method Invalidate(clearPending: bool, clearCredential: bool, io: IO) returns (r: Result<nat, RecordFailure>)
      modifies this
      ensures State() == Apply(old(State()), InvalidateEdit(old(record), clearPending, clearCredential), io).0
      ensures r.Ok? <==> Apply(old(State()), InvalidateEdit(old(record), clearPending, clearCredential), io).1.None?
      ensures r.Ok? ==> r.value == record.generation == old(record).generation + 1
      ensures r.Err? ==>
                Apply(old(State()), InvalidateEdit(old(record), clearPending, clearCredential), io).1 == Some(r.error)
    {
      var copy := record;
      if copy.generation == MAX_INT64 { return Err(StorageFailed); }
      copy := copy.(generation := copy.generation + 1);
      copy := copy.(access := None);
      if clearCredential { copy := copy.(credential := None); }
      copy := ClearOfflineAuthority(copy);
      if clearPending { copy := copy.(pending := None); }
      var failure := WriteLocked(copy, io);
      return if failure.Some? then Err(failure.value) else Ok(copy.generation);
    }

    method DropCache(io: IO) returns (failure: Option<RecordFailure>)
      modifies this
      ensures (State(), failure) == Apply(old(State()), DropCacheEdit(old(record)), io)
    {
      if record.access.None? {
        failure := CheckLocked(io);
        return;
      }
      failure := WriteLocked(record.(access := None), io);
    }

    method RebindIfChanged(fingerprint: Option<Text>, provider: Option<Text>, newID: Text, io: IO)
      returns (rebound: bool, failure: Option<RecordFailure>)
      modifies this
      ensures Answers(old(State()), io) ==>
                (State(), failure) == Apply(old(State()), RebindEdit(old(record), fingerprint, provider, newID), io)
      ensures !Answers(old(State()), io) ==> State() == old(State()) && failure == Some(StorageFailed)
      ensures failure.None? ==> record.installation.fingerprint == fingerprint && record.installation.provider == provider
    {
      failure := CheckLocked(io);
      if failure.Some? { return false, failure; }
      if record.installation.fingerprint == fingerprint && record.installation.provider == provider {
        return false, None;
      }
      if record.generation == MAX_INT64 { return false, Some(StorageFailed); }
      var r := record;
      r := r.(generation := r.generation + 1);
      r := r.(installation := Identity(newID, fingerprint, provider));
      r := r.(credential := None, access := None, pending := None);
      r := r.(offline := None);
      failure := WriteLocked(r, io);
      return true, failure;
    }

    method Begin(principal: Principal, customerGiven: bool, customerOpaque: bool, digest: Text, operation: Text,
        newID: Text, now: int, io: IO)
      returns (r: Result<(Text, nat), RecordFailure>)
      modifies this
      ensures var (edit, sent) := BeginEdit(old(record), principal, customerGiven, customerOpaque, digest, operation,
          newID, now);
              && State() == Apply(old(State()), edit, io).0
              && (r.Ok? <==> Apply(old(State()), edit, io).1.None?)
              && (r.Ok? ==> r.value == (sent, record.generation))
              && (r.Err? ==> Apply(old(State()), edit, io).1 == Some(r.error))
    {
      var copy := record;
      if principal == ByAccount {
        if !customerOpaque { return Err(BadInput); }
      } else if customerGiven { return Err(BadInput); }
      if now < 0 { return Err(BadClock); }
      var chosen := operation;
      if copy.pending.Some? {
        var p := copy.pending.value;
        if now < p.createdAt || now - p.createdAt >= DAY { return Err(PendingExpired); }
        if p.inputDigest != digest || p.principal != principal || (operation != [] && operation != p.operationID) {
          return Err(PendingMismatch);
        }
        chosen := p.operationID;
      } else {
        if chosen == [] { chosen := newID; }
        copy := copy.(pending := Some(Pending(chosen, principal, digest, now)));
      }
      if copy.generation == MAX_INT64 { return Err(StorageFailed); }
      copy := copy.(generation := copy.generation + 1);
      copy := copy.(credential := None, access := None);
      copy := ClearOfflineAuthority(copy);
      var failure := WriteLocked(copy, io);
      return if failure.Some? then Err(failure.value) else Ok((chosen, copy.generation));
    }

    /** The anchor is read once more while saving; wall is the wall clock then. */
    method Commit(version: nat, c: StoredCredential, jws: Text, licenceExpiresAt: Option<int>, anchor: TimeAnchor,
        sample: Sample, wall: int, io: IO)
      returns (failure: Option<RecordFailure>)
      modifies this
      ensures Now(anchor, sample).None? ==> failure == Some(BadClock) && State() == old(State())
      ensures Now(anchor, sample).Some? ==>
                var access := CachedAccess(jws, licenceExpiresAt, anchor.server, anchor.start.wall,
                    Now(anchor, sample).value, wall);
                (State(), failure) == Apply(old(State()), CommitEdit(old(record), version, c, access), io)
    {
      var now := Now(anchor, sample);
      if now.None? { return Some(BadClock); }
      if version != record.generation { return Some(StaleVersion); }
      var r := record;
      r := r.(credential := Some(InstalledCredentialFrom(c)), pending := None);
      r := ClearOfflineAuthority(r);
      r := r.(installation := r.installation.(fingerprint := c.fingerprint, provider := c.fingerprintProvider));
      r := r.(access := Some(CachedAccess(jws, licenceExpiresAt, anchor.server, anchor.start.wall, now.value, wall)));
      failure := WriteLocked(r, io);
    }

    method CommitCredential(version: nat, c: StoredCredential, io: IO) returns (failure: Option<RecordFailure>)
      modifies this
      ensures (State(), failure) == Apply(old(State()), CommitCredentialEdit(old(record), version, c), io)
    {
      if version != record.generation { return Some(StaleVersion); }
      var r := record;
      r := r.(credential := Some(InstalledCredentialFrom(c)), pending := None, access := None);
      r := ClearOfflineAuthority(r);
      r := r.(installation := r.installation.(fingerprint := c.fingerprint, provider := c.fingerprintProvider));
      failure := WriteLocked(r, io);
    }

    method Checkpoint(server: int, wall: int, io: IO) returns (failure: Option<RecordFailure>)
      modifies this
      ensures (State(), failure) == Apply(old(State()), CheckpointEdit(old(record), server, wall), io)
    {
      if record.access.None? {
        failure := CheckLocked(io);
        return;
      }
      var access := record.access.value;
      if server < access.serverHighWater || wall < access.wallHighWater || server > LAST_SECOND || wall > LAST_SECOND {
        return Some(BadClock);
      }
      var drift := (server - access.receivedServer) - (wall - access.receivedWall);
      if drift < -DRIFT || drift > DRIFT { return Some(BadClock); }
      access := access.(serverHighWater := server, wallHighWater := wall);
      failure := WriteLocked(record.(access := Some(access)), io);
    }

    method OfflineState(io: IO) returns (r: Result<Option<OfflineRecord>, RecordFailure>)
      ensures r == if Answers(State(), io) then Ok(record.offline) else Err(StorageFailed)
    {
      var failure := CheckLocked(io);
      if failure.Some? { return Err(failure.value); }
      return Ok(record.offline);
    }

    method SaveOffline(version: nat, o: OfflineRecord, io: IO) returns (r: Result<nat, RecordFailure>)
      modifies this
      ensures State() == Apply(old(State()), SaveOfflineEdit(old(record), version, o), io).0
      ensures r.Ok? <==> Apply(old(State()), SaveOfflineEdit(old(record), version, o), io).1.None?
      ensures r.Ok? ==> r.value == record.generation
      ensures r.Err? ==> Apply(old(State()), SaveOfflineEdit(old(record), version, o), io).1 == Some(r.error)
    {
      if version != record.generation { return Err(StaleVersion); }
      if record.offline.Some? {
        var previous := record.offline.value;
        if o.sequence < previous.sequence
           || (o.sequence == previous.sequence && (o.issuanceID != previous.issuanceID
               || o.contentDigest != previous.contentDigest))
           || o.timeHighWater < previous.timeHighWater
               || o.wallHighWater < previous.wallHighWater { return Err(OfflineSequence); }
      }
      if record.generation == MAX_INT64 { return Err(StorageFailed); }
      var copy := record;
      copy := copy.(generation := copy.generation + 1);
      copy := copy.(credential := None, access := None, pending := None);
      copy := copy.(offline := Some(o));
      var failure := WriteLocked(copy, io);
      return if failure.Some? then Err(failure.value) else Ok(copy.generation);
    }

    method CheckpointOffline(o: OfflineRecord, io: IO) returns (failure: Option<RecordFailure>)
      modifies this
      ensures (State(), failure) == Apply(old(State()), CheckpointOfflineEdit(old(record), o), io)
    {
      if record.offline.None? || record.offline.value.jws.None? || o.jws.None? { return Some(StaleVersion); }
      var previous := record.offline.value;
      if o.jws != previous.jws || o.sequence != previous.sequence || o.issuanceID != previous.issuanceID
         || o.contentDigest != previous.contentDigest || o.verifiedAt != previous.verifiedAt
         || o.timeHighWater < previous.timeHighWater
             || o.wallHighWater < previous.wallHighWater { return Some(StaleVersion); }
      failure := WriteLocked(record.(offline := Some(o)), io);
    }

    method Close()
      modifies this
      ensures closed && poisoned == old(poisoned) && record == if old(closed) then old(record) else BLANK
    {
      if closed { return; }
      closed, record := true, BLANK;
    }
  }
}
