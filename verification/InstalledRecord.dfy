/** The one record an installed client keeps (sdk/go/installed_codec.go), what a reader accepts, and the edits the
    transitions of sdk/go/installed_storage.go make to it. Clock readings, generated IDs and digests are arguments. */
module InstalledRecord {
  import opened Common
  import opened Text
  import opened Storage
  import opened Clock
  import opened Access
  import Utf8

  datatype Scope = Scope(apiOrigin: Text, issuer: Text, applicationID: Text, environmentID: Text)

  datatype Identity = Identity(id: Text, fingerprint: Option<Text>, provider: Option<Text>)

  datatype InstalledCredential = InstalledCredential(activationID: Text, licenceID: Text, bearer: Text,
      expiresAt: Option<int>)

  datatype Principal = ByKey | ByAccount

  datatype Pending = Pending(operationID: Text, principal: Principal, inputDigest: Text, createdAt: int)

  datatype CachedAccess = CachedAccess(
    jws: Text, licenceExpiresAt: Option<int>, receivedServer: int, receivedWall: int, serverHighWater: int,
        wallHighWater: int)

  datatype Record = Record(
    format: int, provider: Text, scope: Scope, installation: Identity, generation: nat,
    credential: Option<InstalledCredential>, pending: Option<Pending>, access: Option<CachedAccess>,
        offline: Option<OfflineRecord>)

  datatype RecordFailure =
    StorageFailed | StaleVersion | BadInput | BadClock | PendingExpired | PendingMismatch | OfflineSequence

  /** What a closed storage object holds. */
  const BLANK := Record(0, [], Scope([], [], [], []), Identity([], None, None), 0, None, None, None, None)

  const MAX_SEQUENCE := 9007199254740991
  const MAX_FILE := 16384
  const MAX_GRANT := 16384
  const DAY := 86400

  // ----- What a reader accepts -----

  predicate Stamp(t: int) { 0 <= t <= LAST_SECOND }

  predicate Positive(t: int) { 0 < t <= LAST_SECOND }

  predicate ControlFree(value: Text) {
    forall k :: 0 <= k < |value| ==>
      value[k] >= 0x20 && value[k] != 0x7F && !(value[k] == 0xC2 && k + 1 < |value| && value[k + 1] <= 0x9F)
  }

  ghost predicate ValidOperationID(value: Text) {
    16 <= |value| <= 128 && Utf8.WellFormed(value) && ControlFree(value)
  }

  predicate ReadableIdentity(i: Identity) {
    Opaque(i.id) && |i.id| >= 16 && ValidBinding(i.fingerprint, i.provider)
  }

  predicate ReadableCredential(c: InstalledCredential) {
    Opaque(c.activationID) && Opaque(c.licenceID) && Bearer(c.bearer) && (c.expiresAt.Some? ==>
        Positive(c.expiresAt.value))
  }

  ghost predicate ReadablePending(p: Pending) {
    ValidOperationID(p.operationID) && LowerHex(p.inputDigest, 64) && Stamp(p.createdAt)
  }

  predicate ReadableAccess(a: CachedAccess) {
    && 0 < |a.jws| <= MAX_GRANT && (a.licenceExpiresAt.Some? ==> Positive(a.licenceExpiresAt.value))
    && Stamp(a.receivedServer) && Stamp(a.receivedWall) && Stamp(a.serverHighWater) && Stamp(a.wallHighWater)
  }

  predicate ReadableOffline(o: OfflineRecord) {
    && 1 <= o.sequence <= MAX_SEQUENCE && Opaque(o.issuanceID) && LowerHex(o.contentDigest, 64)
    && Stamp(o.verifiedAt) && o.verifiedAt <= o.timeHighWater <= LAST_SECOND && Stamp(o.wallHighWater)
    && (o.jws.Some? ==> 0 < |o.jws.value| <= MAX_FILE)
  }

  /** An offline token stands alone. */
  predicate TokenAlone(r: Record) {
    r.offline.Some? && r.offline.value.jws.Some? ==> r.credential.None? && r.access.None? && r.pending.None?
  }

  /** decodeInstalled, on records whose shape is right. */
  ghost predicate Decodable(r: Record, scope: Scope, provider: Text) {
    && r.provider == provider && r.scope == scope && r.generation <= MAX_INT64
    && r.format == FormatOf(r)
    && ReadableIdentity(r.installation)
    && (r.credential.Some? ==> ReadableCredential(r.credential.value))
    && (r.pending.Some? ==> ReadablePending(r.pending.value))
    && (r.access.Some? ==> r.credential.Some? && ReadableAccess(r.access.value))
    && (r.offline.Some? ==> ReadableOffline(r.offline.value))
    && TokenAlone(r)
  }

  function FormatOf(r: Record): int { if r.offline.None? then 2 else 3 }

  function StoredCredentialOf(r: Record): Option<StoredCredential> {
    if r.credential.None? then None
    else
      var c := r.credential.value;
      Some(StoredCredential(r.scope.applicationID, r.scope.environmentID, c.activationID, c.licenceID,
          r.installation.id, c.bearer,
        if c.expiresAt.Some? then c.expiresAt.value else 0, r.installation.fingerprint, r.installation.provider))
  }

  function InstalledCredentialFrom(c: StoredCredential): InstalledCredential {
    InstalledCredential(c.activationID, c.licenceID, c.credential, if c.credentialExpiresAt != 0
        then Some(c.credentialExpiresAt) else None)
  }

  // ----- Edits -----

  /** Check writes nothing but still asks whether the files answer. */
  datatype Edit = Check | Decline(failure: RecordFailure) | Put(record: Record)

  function ClearOfflineAuthority(r: Record): Record {
    if r.offline.None? then r else r.(offline := Some(r.offline.value.(jws := None)))
  }

  /** The storage interface's Save, which the installed client itself never calls. */
  function SaveEdit(r: Record, version: nat, c: StoredCredential): Edit {
    if version != r.generation then Decline(StaleVersion)
    else Put(ClearOfflineAuthority(r.(credential := Some(InstalledCredentialFrom(c)), access := None)))
  }

  function InvalidateEdit(r: Record, clearPending: bool, clearCredential: bool): Edit {
    if r.generation == MAX_INT64 then Decline(StorageFailed)
    else
      Put(ClearOfflineAuthority(r.(generation := r.generation + 1, access := None,
        credential := if clearCredential then None else r.credential,
        pending := if clearPending then None else r.pending)))
  }

  function DropCacheEdit(r: Record): Edit { if r.access.None? then Check else Put(r.(access := None)) }

  function RebindEdit(r: Record, fingerprint: Option<Text>, provider: Option<Text>, newID: Text): Edit {
    if r.installation.fingerprint == fingerprint && r.installation.provider == provider then Check
    else if r.generation == MAX_INT64 then Decline(StorageFailed)
    else
      Put(r.(generation := r.generation + 1, installation := Identity(newID, fingerprint, provider),
        credential := None, access := None, pending := None, offline := None))
  }

  /** digest is the digest of this call's input; operation is the caller's operation ID, empty for none. */
  function BeginEdit(r: Record, principal: Principal, customerGiven: bool, customerOpaque: bool, digest: Text,
      operation: Text, newID: Text, now: int)
    : (e: (Edit, Text))
  {
    if (principal == ByAccount && !customerOpaque) || (principal == ByKey && customerGiven) then (Decline(BadInput), [])
    else if now < 0 then (Decline(BadClock), [])
    else if r.pending.Some? && (now < r.pending.value.createdAt || now - r.pending.value.createdAt >= DAY)
        then (Decline(PendingExpired), [])
    else if r.pending.Some? && (r.pending.value.inputDigest != digest || r.pending.value.principal != principal
                                || (operation != [] && operation != r.pending.value.operationID))
                                    then (Decline(PendingMismatch), [])
    else if r.generation == MAX_INT64 then (Decline(StorageFailed), [])
    else
      var pending :=
        if r.pending.Some? then r.pending.value
        else Pending(if operation == [] then newID else operation, principal, digest, now);
      (Put(ClearOfflineAuthority(r.(generation := r.generation + 1, pending := Some(pending), credential := None,
          access := None))),
       pending.operationID)
  }

  function CommitEdit(r: Record, version: nat, c: StoredCredential, access: CachedAccess): Edit {
    if version != r.generation then Decline(StaleVersion)
    else
      Put(ClearOfflineAuthority(r.(credential := Some(InstalledCredentialFrom(c)), pending := None,
          access := Some(access),
        installation := r.installation.(fingerprint := c.fingerprint, provider := c.fingerprintProvider))))
  }

  function CommitCredentialEdit(r: Record, version: nat, c: StoredCredential): Edit {
    if version != r.generation then Decline(StaleVersion)
    else
      Put(ClearOfflineAuthority(r.(credential := Some(InstalledCredentialFrom(c)), pending := None, access := None,
        installation := r.installation.(fingerprint := c.fingerprint, provider := c.fingerprintProvider))))
  }

  function CheckpointEdit(r: Record, server: int, wall: int): Edit {
    if r.access.None? then Check
    else
      var a := r.access.value;
      var drift := (server - a.receivedServer) - (wall - a.receivedWall);
      if server < a.serverHighWater || wall < a.wallHighWater || server > LAST_SECOND || wall > LAST_SECOND
         || drift < -DRIFT || drift > DRIFT then Decline(BadClock)
      else Put(r.(access := Some(a.(serverHighWater := server, wallHighWater := wall))))
  }

  predicate SameIssue(a: OfflineRecord, b: OfflineRecord) {
    a.issuanceID == b.issuanceID
      && a.contentDigest == b.contentDigest
  }

  function SaveOfflineEdit(r: Record, version: nat, o: OfflineRecord): Edit {
    if version != r.generation then Decline(StaleVersion)
    else if r.offline.Some? && (o.sequence < r.offline.value.sequence
        || (o.sequence == r.offline.value.sequence && !SameIssue(o, r.offline.value))
                                || o.timeHighWater < r.offline.value.timeHighWater
                                    || o.wallHighWater < r.offline.value.wallHighWater)
      then Decline(OfflineSequence)
    else if r.generation == MAX_INT64 then Decline(StorageFailed)
    else Put(r.(generation := r.generation + 1, credential := None, access := None, pending := None,
        offline := Some(o)))
  }

  function CheckpointOfflineEdit(r: Record, o: OfflineRecord): Edit {
    if r.offline.None? then Decline(StaleVersion)
    else
      var previous := r.offline.value;
      if previous.jws.None? || o.jws != previous.jws || o.sequence != previous.sequence || !SameIssue(o, previous)
         || o.verifiedAt != previous.verifiedAt || o.timeHighWater < previous.timeHighWater
             || o.wallHighWater < previous.wallHighWater
      then Decline(StaleVersion)
      else Put(r.(offline := Some(o)))
  }

  // ----- Writing -----

  /** How the files answer: the check, whether the encoding fits, and whether the replacement succeeds. */
  datatype IO = IO(checks: bool, fits: bool, writes: bool)

  datatype Held = Held(record: Record, poisoned: bool, closed: bool)

  predicate Answers(s: Held, io: IO) { !s.closed && !s.poisoned && io.checks }

  /** A failed replacement poisons the object: it never writes, or reports a version, again. */
  function Write(s: Held, r: Record, io: IO): (Held, Option<RecordFailure>) {
    if !Answers(s, io) || !io.fits then (s, Some(StorageFailed))
    else if !io.writes then (s.(poisoned := true), Some(StorageFailed))
    else (s.(record := r.(format := FormatOf(r))), None)
  }

  function Apply(s: Held, e: Edit, io: IO): (Held, Option<RecordFailure>) {
    match e
    case Decline(failure) => (s, Some(failure))
    case Check => (s, if Answers(s, io) then None else Some(StorageFailed))
    case Put(r) => Write(s, r, io)
  }
}
