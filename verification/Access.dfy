/** The access state of a client (sdk/go/access.go, sdk/go/sessions.go) and the transitions its critical sections
    make. Storage answers, clock samples and replies are arguments. */
module Access {
  import opened Common
  import opened Text
  import opened Storage
  import opened Clock

  datatype GrantClaims = GrantClaims(
    subject: Text, issuedAt: int, notBefore: int, expiresAt: int, refreshAfter: int,
    offlineAllowed: bool, licenceExpiresAt: Option<int>, entitlements: map<Text, bool>)

  datatype OfflineClaims = OfflineClaims(
    installationID: Text, issuanceID: Text, contentDigest: Text, sequence: int,
    issuedAt: int, expiresAt: int, entitlements: map<Text, bool>)

  datatype OfflineRecord = OfflineRecord(
    jws: Option<Text>, sequence: int, issuanceID: Text, contentDigest: Text,
    verifiedAt: int, timeHighWater: int, wallHighWater: int)

  /** claims and anchor are absent while no file is authorised. */
  datatype OfflineRuntime = OfflineRuntime(
    claims: Option<OfflineClaims>, anchor: Option<TimeAnchor>, uncertain: bool, authorized: bool,
    wallHighWater: int, saved: OfflineRecord)

  datatype SessionRuntime = SessionRuntime(
    id: Text, sequence: nat, expiresAt: int, refreshAfter: int, entitlements: map<Text, bool>,
    anchor: TimeAnchor, pendingSequence: nat)

  datatype AccessState = AccessState(
    generation: nat, storageVersion: nat, account: bool,
    credential: Option<StoredCredential>, claims: Option<GrantClaims>, anchor: Option<TimeAnchor>, transient: bool,
    offline: Option<OfflineRuntime>,
    sessionRequired: bool, sessionPolicyKnown: bool, sessionDisabled: bool,
    session: Option<SessionRuntime>, pendingSessionID: Option<Text>, sessionLicenceExpiresAt: Option<int>,
    failure: Option<Failure>, unsupported: bool)

  datatype Level = Denied | Online | Offline | RefreshRequired | Expired

  datatype Snapshot = Snapshot(
    access: Level, entitlements: map<Text, bool>, offlineFileMode: bool, reauthenticationRequired: bool,
    expiresAt: Option<int>, remainingOffline: int)
  {
    predicate HasFeature(feature: Text) { feature in entitlements && entitlements[feature] }
  }

  datatype Failure =
    | ClientClosed | StorageError | StaleResponse | Cancelled | TransientError | DeniedError | InvalidResponse
    | ClockUncertain | NotActivated | FeatureUnavailable | SessionRequired | FileExpired | ReauthenticationRequired
    | Misconfigured | VersionUnsupported

  // ----- Clearing and synchronising -----

  function ClearAccess(s: AccessState): AccessState {
    s.(generation := s.generation + 1, credential := None, claims := None, anchor := None, transient := false,
       sessionRequired := false, sessionPolicyKnown := false, sessionDisabled := false,
       session := None, pendingSessionID := None, sessionLicenceExpiresAt := None, failure := None,
           unsupported := false,
       offline := match s.offline case None => None case Some(o) => Some(o.(authorized := false)))
  }

  function ClearState(s: AccessState): AccessState { ClearAccess(s).(account := false) }

  /** What a client makes of the version its storage reports; None is a failed read. */
  function Synced(s: AccessState, version: Option<nat>): (r: (AccessState, bool)) {
    if version.None? then (ClearState(s), false)
    else if version.value != s.storageVersion then (ClearState(s).(storageVersion := version.value), true)
    else (s, true)
  }

  /** The state after an invalidation the client itself asked for. */
  function Invalidated(s: AccessState, version: Option<nat>): AccessState {
    if version.None? then s else s.(storageVersion := version.value)
  }

  // ----- Snapshots -----

  predicate OfflineAuthorized(s: AccessState) { s.offline.Some? && s.offline.value.authorized }

  function OfflineSnapshot(o: OfflineRuntime, now: Option<int>): Snapshot {
    var expires := if o.claims.Some? then o.claims.value.expiresAt else 0;
    var snapshot := Snapshot(Denied, map[], true, false, Some(expires), 0);
    if now.None? || o.claims.None? then snapshot
    else if now.value >= expires then snapshot.(access := Expired)
    else snapshot.(access := Offline, entitlements := o.claims.value.entitlements,
        remainingOffline := expires - now.value)
  }

  /** The time an authorised file is judged at, or None when the clocks cannot be trusted. */
  function OfflineNow(o: OfflineRuntime, sample: Sample): Option<int> {
    if o.anchor.None? then None
    else
      match NowWithWall(o.anchor.value, sample)
      case None => None
      case Some(r) => if r.wall + DRIFT < o.wallHighWater then None else Some(r.now)
  }

  function SnapshotAt(s: AccessState, now: Option<int>): Snapshot {
    var snapshot := Snapshot(if s.credential.Some? then RefreshRequired else Denied, map[], false, s.credential.None?,
        None, 0);
    if s.claims.None? || s.anchor.None? || now.None? then snapshot
    else
      var claims, t := s.claims.value, now.value;
      var credentialExpiry := if s.credential.Some? then s.credential.value.credentialExpiresAt else 0;
      var access :=
        if claims.expiresAt <= t then Expired
        else if s.transient then (if claims.offlineAllowed then Offline else RefreshRequired)
        else if claims.refreshAfter <= t then RefreshRequired
        else Online;
      var usable := access == Online || access == Offline;
      Snapshot(access, if usable then claims.entitlements else map[], false,
        credentialExpiry != 0 && credentialExpiry <= SaturatingAdd(t, 86400), Some(claims.expiresAt),
        if usable && claims.offlineAllowed then claims.expiresAt - t else 0)
  }

  /** The snapshot of a floating seat; a clock failure drops the seat. */
  function SessionSnapshot(s: AccessState, sample: Sample): (r: (AccessState, Snapshot)) {
    var snapshot := Snapshot(if s.credential.Some? then RefreshRequired else Denied, map[], false, s.credential.None?,
        None, 0);
    if s.session.None? then (s, snapshot)
    else
      var session := s.session.value;
      var dated := snapshot.(expiresAt := Some(session.expiresAt));
      match Now(session.anchor, sample)
      case None => (s.(session := None), dated)
      case Some(now) =>
        if now >= session.expiresAt then (s, dated.(access := Expired))
        else if s.sessionLicenceExpiresAt.Some? && now >= s.sessionLicenceExpiresAt.value
            then (s, dated.(access := Expired))
        else (s, dated.(access := Online, entitlements := session.entitlements))
  }

  /** Looking at a seat changes nothing but, when the clock fails, the seat. */
  lemma SeatLookOnlyDrops(s: AccessState, sample: Sample)
    ensures SessionSnapshot(s, sample).0 == s || SessionSnapshot(s, sample).0 == s.(session := None)
  {}

  /** And the clock fails exactly when its anchor cannot be read. */
  lemma SeatIsLookedAt(s: AccessState, sample: Sample)
    requires s.session.Some?
    ensures SessionSnapshot(s, sample).0 ==
              if Now(s.session.value.anchor, sample).Some? then s else s.(session := None)
  {
    hide NowWithWall;
  }

  function WithUncertain(s: AccessState, uncertain: bool): AccessState
    requires s.offline.Some?
  {
    s.(offline := Some(s.offline.value.(uncertain := uncertain)))
  }

  function AnchorNow(s: AccessState, sample: Sample): Option<int> {
    if s.anchor.None? then None else Now(s.anchor.value, sample)
  }

  /** snapshotLocked: a look at the state without synchronising storage. */
  function SnapshotLocked(s: AccessState, sample: Sample): (r: (AccessState, Snapshot)) {
    if OfflineAuthorized(s) then
      var now := OfflineNow(s.offline.value, sample);
      (WithUncertain(s, now.None?), OfflineSnapshot(s.offline.value, now))
    else if s.sessionRequired then SessionSnapshot(s, sample)
    else (s, SnapshotAt(s, AnchorNow(s, sample)))
  }

  /** checkedSnapshotLocked after its synchronisation: an untrusted clock also discards cached authority. */
  function CheckedSnapshot(s: AccessState, sample: Sample): (r: (AccessState, Snapshot)) {
    if OfflineAuthorized(s) || s.sessionRequired || s.anchor.None? || AnchorNow(s, sample).Some?
        then SnapshotLocked(s, sample)
    else
      var t := s.(claims := None, anchor := None, generation := s.generation + 1);
      (t, SnapshotAt(t, None))
  }

  // ----- Replies to activation and validation -----

  datatype Verified = Verified(
    saved: StoredCredential, claims: Option<GrantClaims>, anchor: Option<TimeAnchor>, floating: bool,
    licenceExpiresAt: Option<int>)

  datatype Reply =
    | Good(verified: Verified)
    | Unavailable(verifying: bool)  // a transient failure of the request, or of fetching a key to verify its reply
    | Unsupported                   // this application version is no longer served
    | Abandoned                     // the caller cancelled
    | Withheld                      // a denial that keeps the credential
    | Dead                          // a denial that proves the credential dead
    | Unacceptable                  // malformed or insecure

  /** The state once a verified reply has been saved. */
  function Installed(s: AccessState, v: Verified, previous: Option<StoredCredential>): AccessState {
    var preserve := v.floating && previous.Some? && s.sessionRequired
      && previous.value.activationID == v.saved.activationID && previous.value.licenceID == v.saved.licenceID
      && previous.value.installationID == v.saved.installationID;
    s.(credential := Some(v.saved), claims := v.claims, anchor := v.anchor,
       sessionRequired := v.floating, sessionPolicyKnown := true,
       session := if preserve then s.session else None,
       pendingSessionID := if preserve then s.pendingSessionID else None,
       sessionLicenceExpiresAt := v.licenceExpiresAt,
       sessionDisabled := v.floating && s.sessionDisabled,
       transient := false, failure := None, unsupported := false)
  }

  function AfterOutage(s: AccessState, verifying: bool): AccessState {
    var t := s.(transient := true, failure := Some(TransientError));
    if verifying then t.(generation := t.generation + 1, claims := None) else t
  }

  function AfterUnsupported(s: AccessState): AccessState {
    s.(generation := s.generation + 1, claims := None, anchor := None, transient := false, session := None,
       pendingSessionID := None, failure := None, unsupported := true)
  }

  // ----- Floating seats -----

  /** How a seat request ended. Granted carries what the reply said; only a reply for the same seat and number counts. */
  datatype SeatReply =
    | Granted(id: Text, sequence: nat, expiresAt: int, refreshAfter: int, entitlements: map<Text, bool>,
        anchor: TimeAnchor)
    | NoReply                       // transient
    | CallerCancelled
    | SeatExpired | SeatEnded | SequenceConflict
    | OtherRefusal

  datatype SeatStart =
    | Answer(state: AccessState, snapshot: Snapshot)
    | Refuse(state: AccessState, failure: Failure)
    | Ask(state: AccessState, id: Text)

  /** startSessionSerialized up to its request, in a synchronised state of the expected generation. */
  function StartSeat(s: AccessState, explicit: bool, newID: Text, pendingTooOld: bool, sample: Sample): SeatStart {
    if OfflineAuthorized(s) || !s.sessionRequired then
      var (t, snapshot) := CheckedSnapshot(s, sample);
      Answer(t, snapshot)
    else
      var enabled := if explicit then s.(sessionDisabled := false) else s;
      var (looked, snapshot) := if enabled.session.Some? then SessionSnapshot(enabled, sample)
          else (enabled, Snapshot(Denied, map[], false, true, None, 0));
      if snapshot.access == Online then Answer(looked, snapshot)
      else if looked.sessionDisabled then Refuse(looked, SessionRequired)
      else if looked.credential.None? then Refuse(looked, NotActivated)
      else
        var id := if looked.pendingSessionID.Some? && !pendingTooOld then looked.pendingSessionID.value else newID;
        Ask(looked.(pendingSessionID := Some(id)), id)
  }

  predicate SameSeat(reply: SeatReply, id: Text, sequence: nat) {
    reply.Granted? && reply.id == id && reply.sequence == sequence
  }

  function Seat(reply: SeatReply): SessionRuntime
    requires reply.Granted?
  {
    SessionRuntime(reply.id, reply.sequence, reply.expiresAt, reply.refreshAfter, reply.entitlements, reply.anchor, 0)
  }

  /** The end of a start request for this seat, in a synchronised state of the expected generation. */
  function FinishStart(s: AccessState, id: Text, reply: SeatReply, cancelled: bool): AccessState {
    if cancelled || reply.CallerCancelled? then s.(pendingSessionID := None)
    else if SameSeat(reply, id, 1) then s.(session := Some(Seat(reply)), pendingSessionID := None)
    else if reply in {SeatExpired, SeatEnded, SequenceConflict} then s.(pendingSessionID := None)
    else s
  }

  /** The number a renewal asks for, recorded so that a retry repeats it. */
  function BeginRenewal(s: AccessState): AccessState
    requires s.session.Some?
  {
    var session := s.session.value;
    s.(session := Some(session.(pendingSequence := if session.pendingSequence == 0 then session.sequence + 1
        else session.pendingSequence)))
  }

  /** The seat is still waiting for this very renewal. */
  predicate Renewing(s: AccessState, id: Text, sequence: nat) {
    s.session.Some? && s.session.value.id == id && s.session.value.pendingSequence == sequence
  }

  /** The end of a renewal request, in a synchronised state of the expected generation. */
  function FinishRenewal(s: AccessState, id: Text, sequence: nat, reply: SeatReply, cancelled: bool): AccessState {
    if cancelled then s.(session := None, sessionDisabled := true)
    else if SameSeat(reply, id, sequence) then
      if Renewing(s, id, sequence) then s.(session := Some(Seat(reply))) else s
    else if reply.NoReply? then s
    else if reply.SeatExpired? then s.(session := None, pendingSessionID := None, sessionDisabled := false)
    else s.(session := None, sessionDisabled := true)
  }

  /** EndSession's clearing. */
  function EndSeat(s: AccessState): AccessState {
    s.(session := None, pendingSessionID := None, sessionDisabled := true, generation := s.generation + 1)
  }

  // ----- What backs an entitlement -----

  /** The snapshot enables the feature from the authority the state holds, strictly before that authority expires. */
  ghost predicate Backed(s: AccessState, sample: Sample, snapshot: Snapshot, feature: Text) {
    || BackedByFile(s, sample, snapshot, feature)
    || BackedBySeat(s, sample, snapshot, feature)
    || BackedByGrant(s, sample, snapshot, feature)
  }

  ghost predicate Enables(entitlements: map<Text, bool>, feature: Text) {
    feature in entitlements && entitlements[feature]
  }

  ghost predicate BackedByFile(s: AccessState, sample: Sample, snapshot: Snapshot, feature: Text) {
    && snapshot.access == Offline && OfflineAuthorized(s)
    && var o := s.offline.value;
    && o.claims.Some? && OfflineNow(o, sample).Some?
    && OfflineNow(o, sample).value < o.claims.value.expiresAt && Enables(o.claims.value.entitlements, feature)
  }

  ghost predicate BackedBySeat(s: AccessState, sample: Sample, snapshot: Snapshot, feature: Text) {
    && snapshot.access == Online && s.session.Some?
    && var seat := s.session.value;
    && Now(seat.anchor, sample).Some?
    && Now(seat.anchor, sample).value < seat.expiresAt && Enables(seat.entitlements, feature)
    && (s.sessionLicenceExpiresAt.Some? ==> Now(seat.anchor, sample).value < s.sessionLicenceExpiresAt.value)
  }

  ghost predicate BackedByGrant(s: AccessState, sample: Sample, snapshot: Snapshot, feature: Text) {
    && s.claims.Some? && AnchorNow(s, sample).Some?
    && AnchorNow(s, sample).value < s.claims.value.expiresAt && Enables(s.claims.value.entitlements, feature)
    && (snapshot.access == Online ==> !s.transient && AnchorNow(s, sample).value < s.claims.value.refreshAfter)
    && (snapshot.access == Offline ==> s.transient && s.claims.value.offlineAllowed)
    && (snapshot.access == Online || snapshot.access == Offline)
    && !s.sessionRequired
  }

  /** Every snapshot, checked or not, that enables a feature is backed; what it reports is Online or Offline. */
  lemma SnapshotsAreBacked(s: AccessState, sample: Sample, feature: Text)
    ensures var snapshot := SnapshotLocked(s, sample).1;
            snapshot.HasFeature(feature) ==> Backed(s, sample, snapshot, feature)
    ensures var snapshot := CheckedSnapshot(s, sample).1;
            snapshot.HasFeature(feature) ==> Backed(s, sample, snapshot, feature)
    ensures var snapshot := SessionSnapshot(s, sample).1;
            snapshot.HasFeature(feature) ==> BackedBySeat(s, sample, snapshot, feature)
  {}

  lemma BackedIsUsable(s: AccessState, sample: Sample, snapshot: Snapshot, feature: Text)
    requires Backed(s, sample, snapshot, feature)
    ensures snapshot.access == Online || snapshot.access == Offline
  {}

  /** And the other way: authority that has not expired and enables a feature is reported as enabling it. */
  lemma LiveGrantIsReported(s: AccessState, sample: Sample, feature: Text)
    requires !OfflineAuthorized(s) && !s.sessionRequired && s.claims.Some? && AnchorNow(s, sample).Some?
    ensures var snapshot, now, claims := CheckedSnapshot(s, sample).1, AnchorNow(s, sample).value, s.claims.value;
            snapshot.HasFeature(feature) <==>
              && Enables(claims.entitlements, feature) && now < claims.expiresAt
              && (if s.transient then claims.offlineAllowed else now < claims.refreshAfter)
  {}

  /** The same for a floating seat, through every path that shows one. */
  lemma LiveSeatIsReported(s: AccessState, sample: Sample, feature: Text)
    requires !OfflineAuthorized(s) && s.sessionRequired && s.session.Some?
    ensures var seat := s.session.value; var now := Now(seat.anchor, sample);
            CheckedSnapshot(s, sample).1.HasFeature(feature) <==>
              && now.Some? && now.value < seat.expiresAt && Enables(seat.entitlements, feature)
              && (s.sessionLicenceExpiresAt.Some? ==> now.value < s.sessionLicenceExpiresAt.value)
    ensures CheckedSnapshot(s, sample).0.session.Some? <==> Now(s.session.value.anchor, sample).Some?
  {
    hide NowWithWall;
  }

  /** And for an authorised offline file, whose wall clock must also be within 30 seconds of the highest one recorded. */
  lemma LiveFileIsReported(s: AccessState, sample: Sample, feature: Text)
    requires OfflineAuthorized(s) && s.offline.value.claims.Some? && s.offline.value.anchor.Some?
    ensures var o := s.offline.value; var reading := NowWithWall(o.anchor.value, sample);
            CheckedSnapshot(s, sample).1.HasFeature(feature) <==>
              && reading.Some? && reading.value.wall >= o.wallHighWater - DRIFT
                  && reading.value.now < o.claims.value.expiresAt
              && Enables(o.claims.value.entitlements, feature)
  {
    hide NowWithWall;
  }

  /** A validation keeps a seat only for the activation, licence and installation the seat was taken with. */
  lemma SeatSurvivesForItsOwnCredential(s: AccessState, v: Verified, previous: Option<StoredCredential>)
    ensures var t := Installed(s, v, previous);
            (t.session.Some? || t.pendingSessionID.Some?) ==>
              && v.floating && s.sessionRequired && t.session == s.session && t.pendingSessionID == s.pendingSessionID
                  && previous.Some?
              && previous.value.activationID == t.credential.value.activationID
                  && previous.value.licenceID == t.credential.value.licenceID
              && previous.value.installationID == t.credential.value.installationID
  {}
}
