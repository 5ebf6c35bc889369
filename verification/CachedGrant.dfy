/** The online grant an installed client caches (sdk/go/grants.go, sdk/go/installed.go): its time window, restoring it
    after a restart, checkpointing its clock, and what a run of these can report. */
module CachedGrant {
  import opened Common
  import opened Text
  import opened Storage
  import opened Clock
  import opened Access
  import opened InstalledRecord
  import opened InstalledStorage
  import opened RecordRuns

  /** What each correctly signed grant for this installation and activation claims. */
  type Grants = map<Text, GrantClaims>

  /** The time window of verifyGrant. */
  predicate InWindow(c: GrantClaims, now: int, credentialExpiresAt: int, licenceExpiresAt: Option<int>) {
    var persistent := credentialExpiresAt == 0;
    var allowance := if c.offlineAllowed then DAY else 300;
    var earliest, latest := if persistent && c.offlineAllowed then 675 else 45, if persistent && c.offlineAllowed
        then 1125 else 75;
    && 0 <= c.issuedAt == c.notBefore
    && SaturatingAdd(now, -DRIFT) <= c.issuedAt <= SaturatingAdd(now, DRIFT)
    && now < c.expiresAt && c.issuedAt < c.expiresAt <= SaturatingAdd(c.issuedAt, allowance)
    && (!persistent ==> c.expiresAt <= credentialExpiresAt)
    && c.licenceExpiresAt == licenceExpiresAt && (licenceExpiresAt.Some? ==> c.expiresAt <= licenceExpiresAt.value)
    && c.issuedAt < c.refreshAfter <= c.expiresAt && c.refreshAfter <= SaturatingAdd(c.issuedAt, latest)
    && (SaturatingAdd(c.issuedAt, earliest) <= c.refreshAfter || c.refreshAfter == c.expiresAt)
  }

  /** The checks of verifyGrant on what a correctly signed grant claims. licence is the one expected, empty when an
      activation key decides it; the subject need only be a text of 1 to 128 bytes. */
  function Verify(
    grants: Grants, jws: Text, licence: Text, now: int, credentialExpiresAt: int,
        licenceExpiresAt: Option<int>): Option<GrantClaims>
  {
    if jws !in grants then None
    else
      var c := grants[jws];
      if 0 < |c.subject| <= 128 && (licence == [] || c.subject == licence)
          && InWindow(c, now, credentialExpiresAt, licenceExpiresAt)
      then Some(c) else None
  }

  /** A verified grant lives at most a day, five minutes if it does not allow offline use, from its issue and, within 30
      seconds, from the verification; and it asks to be refreshed well before that. */
  lemma WindowIsShort(c: GrantClaims, now: int, credentialExpiresAt: int, licenceExpiresAt: Option<int>)
    requires InWindow(c, now, credentialExpiresAt, licenceExpiresAt)
    ensures c.expiresAt <= c.issuedAt + (if c.offlineAllowed then DAY else 300)
    ensures now < c.expiresAt <= now + DRIFT + (if c.offlineAllowed then DAY else 300)
    ensures c.issuedAt < c.refreshAfter <= c.expiresAt
    ensures c.refreshAfter <= c.issuedAt + 1125
  {}

  /** The seconds from issue to expiry and refresh that a grant may have; an activation whose credential does not expire
      may refresh a grant for offline use later. */
  predicate PacedFor(c: GrantClaims, persistent: bool) {
    var life, refresh := c.expiresAt - c.issuedAt, c.refreshAfter - c.issuedAt;
    && 0 < life <= (if c.offlineAllowed then 86400 else 300) && 0 < refresh <= life
    && (if persistent && c.offlineAllowed then refresh <= 1125 && (675 <= refresh || refresh == life)
        else refresh <= 75 && (45 <= refresh || refresh == life))
  }

  /** Every grant that is due is accepted: exactly those correctly signed, for this licence, issued within 30 seconds of
      now and not expired, ending no later than credential and licence, and paced as the policy allows. */
  lemma GrantIsAcceptedIff(grants: Grants, jws: Text, licence: Text, now: int, credentialExpiresAt: int,
      licenceExpiresAt: Option<int>)
    requires MIN_INT64 + 30 <= now <= MAX_INT64 - DAY - 30
    ensures var accepted :=
              && jws in grants
              && var c := grants[jws];
              && 1 <= |c.subject| <= 128 && (licence == [] || c.subject == licence)
              && 0 <= c.issuedAt && c.notBefore == c.issuedAt && now - 30 <= c.issuedAt <= now + 30 && now < c.expiresAt
              && (credentialExpiresAt != 0 ==> c.expiresAt <= credentialExpiresAt)
              && c.licenceExpiresAt == licenceExpiresAt
              && (licenceExpiresAt.Some? ==> c.expiresAt <= licenceExpiresAt.value)
              && PacedFor(c, credentialExpiresAt == 0);
            Verify(grants, jws, licence, now, credentialExpiresAt, licenceExpiresAt) ==
              if accepted then Some(grants[jws]) else None
  {}

  // ----- Which subjects survive a restart -----

  /** A client that activates with a key takes the licence's ID from the grant's subject. Everything else in range, what it
      commits can be read again if and only if the verified subject consists of token characters. */
  lemma VerifiedSubjectIsReadableIff(
    r: Record, grants: Grants, jws: Text, now: int, c: StoredCredential, access: CachedAccess, scope: Scope,
        provider: Text)
    requires Decodable(r, scope, provider) && Exclusive(r)
    requires Verify(grants, jws, [], now, c.credentialExpiresAt, access.licenceExpiresAt).Some?
        && c.licenceID == grants[jws].subject
    requires Opaque(c.activationID) && Bearer(c.credential)
    requires c.credentialExpiresAt != 0 ==> Positive(c.credentialExpiresAt)
    requires ValidBinding(c.fingerprint, c.fingerprintProvider) && ReadableAccess(access)
    ensures CommitEdit(r, r.generation, c, access).Put?
    ensures var written := Stamped(CommitEdit(r, r.generation, c, access).record);
            Decodable(written, scope, provider) <==> AsciiToken(grants[jws].subject)
  {
    WrittenIsReadableIff(r, Commit(r.generation, c, access), scope, provider);
    hide Decodable, ReadableAccess, Bearer, InWindow, AsciiToken;
  }

  /** Such a subject can be received: at any time a grant whose subject is one space passes the checks. */
  lemma OddSubjectIsVerified(jws: Text, now: int)
    requires 0 <= now <= LAST_SECOND
    ensures var c := GrantClaims([32], now, now, now + 300, now + 60, false, None, map[]);
            Verify(map[jws := c], jws, [], now, 0, None) == Some(c) && !AsciiToken(c.subject)
  {
    var c := GrantClaims([32], now, now, now + 300, now + 60, false, None, map[]);
    assert c.subject[0] == 32;
  }

  /** Keep: the cache belongs to another machine identity and stays as it is. Drop: it cannot be trusted any more. */
  datatype Restored = Keep | Drop | Use(claims: GrantClaims, anchor: TimeAnchor)

  /** The seconds since the epoch the cached grant's server clock is estimated to be at, if the marks allow one. */
  function Estimate(a: CachedAccess, start: RequestStart): Option<int> {
    var drift := (a.serverHighWater - a.receivedServer) - (a.wallHighWater - a.receivedWall);
    var elapsed := start.wall - a.receivedWall;
    if start.wall < a.wallHighWater || a.serverHighWater < a.receivedServer || a.wallHighWater < a.receivedWall
        then None
    else if drift < -DRIFT || drift > DRIFT then None
    else if elapsed < 0 || a.receivedServer > LAST_SECOND - elapsed then None
    else Some(Max(a.receivedServer + elapsed, a.serverHighWater))
  }

  /** restoreInstalled's online part. */
  function Restore(r: Record, fingerprint: Option<Text>, provider: Option<Text>, grants: Grants, s: Sample): Restored {
    if r.access.None? || r.credential.None? then Keep
    else if r.installation.fingerprint != fingerprint || r.installation.provider != provider then Keep
    else
      var a := r.access.value;
      var expiry := if r.credential.value.expiresAt.Some? then r.credential.value.expiresAt.value else 0;
      var claims := Verify(grants, a.jws, r.credential.value.licenceID, a.receivedServer, expiry, a.licenceExpiresAt);
      if claims.None? || CaptureStart(s).None? then Drop
      else
        var start := CaptureStart(s).value;
        match Estimate(a, start)
        case None => Drop
        case Some(estimated) =>
          if estimated < claims.value.notBefore || estimated >= claims.value.expiresAt
              || (expiry != 0 && estimated >= expiry) then Drop
          else Use(claims.value, TimeAnchor(estimated, start))
  }

  /** A restored clock starts at or above the saved server mark, never below it and never past the grant. */
  lemma RestoredClockIsNotBehind(r: Record, fingerprint: Option<Text>, provider: Option<Text>, grants: Grants,
      s: Sample)
    requires Restore(r, fingerprint, provider, grants, s).Use?
    ensures var u := Restore(r, fingerprint, provider, grants, s);
            && r.access.Some? && u.anchor.server >= r.access.value.serverHighWater
            && u.anchor.server >= r.access.value.receivedServer + (s.wall - r.access.value.receivedWall)
            && u.claims.notBefore <= u.anchor.server < u.claims.expiresAt <= u.claims.issuedAt + DAY
            && s.elapsed == Some(u.anchor.start.elapsed)
                && s.wall == u.anchor.start.wall >= r.access.value.wallHighWater
  {}

  /** And it is restored whenever the saved marks, the signature and the wall clock allow it. */
  lemma CacheIsUsedIff(r: Record, grants: Grants, s: Sample)
    requires r.access.Some? && r.credential.Some?
    ensures var a, c := r.access.value, r.credential.value;
            var expiry := if c.expiresAt.Some? then c.expiresAt.value else 0;
            var claims := Verify(grants, a.jws, c.licenceID, a.receivedServer, expiry, a.licenceExpiresAt);
            var progress := s.wall - a.receivedWall;
            var estimated := Max(a.receivedServer + progress, a.serverHighWater);
            Restore(r, r.installation.fingerprint, r.installation.provider, grants, s).Use? <==>
              && claims.Some? && s.elapsed.Some? && 0 <= s.wall && a.receivedWall <= a.wallHighWater <= s.wall
              && a.receivedServer <= a.serverHighWater && a.receivedServer + progress <= LAST_SECOND
              && -DRIFT <= (a.serverHighWater - a.receivedServer) - (a.wallHighWater - a.receivedWall) <= DRIFT
              && claims.value.notBefore <= estimated < claims.value.expiresAt && (expiry != 0 ==> estimated < expiry)
  {
    hide InWindow;
  }

  class CachingClient {
    const storage: InstalledStorage
    var claims: Option<GrantClaims>
    var anchor: Option<TimeAnchor>
    var transient: bool

    constructor (storage: InstalledStorage)
      ensures this.storage == storage && claims.None? && anchor.None? && !transient
    {
      this.storage, claims, anchor, transient := storage, None, None, false;
    }

    method RestoreGrant(fingerprint: Option<Text>, provider: Option<Text>, grants: Grants, s: Sample, io: IO)
      returns (failure: Option<RecordFailure>)
      modifies this, storage
      ensures match Restore(old(storage.record), fingerprint, provider, grants, s)
              case Keep => (failure.None? && storage.State() == old(storage.State()) && claims == old(claims)
                            && anchor == old(anchor))
              case Drop => ((storage.State(), failure) ==
                              Apply(old(storage.State()), DropCacheEdit(old(storage.record)), io)
                            && claims == old(claims) && anchor == old(anchor))
              case Use(c, a) => (failure.None? && storage.State() == old(storage.State()) && claims == Some(c)
                                 && anchor == Some(a) && transient)
    {
      hide InWindow;
      var r := storage.record;
      if r.access.None? || r.credential.None? { return None; }
      if r.installation.fingerprint != fingerprint || r.installation.provider != provider { return None; }
      var a, expiry := r.access.value, 0;
      if r.credential.value.expiresAt.Some? { expiry := r.credential.value.expiresAt.value; }
      var verified := Verify(grants, a.jws, r.credential.value.licenceID, a.receivedServer, expiry, a.licenceExpiresAt);
      var start := CaptureStart(s);
      if verified.None? || start.None? || start.value.wall < a.wallHighWater || a.serverHighWater < a.receivedServer
          || a.wallHighWater < a.receivedWall {
        failure := storage.DropCache(io);
        return;
      }
      var serverProgress, wallProgress := a.serverHighWater - a.receivedServer, a.wallHighWater - a.receivedWall;
      var elapsed := start.value.wall - a.receivedWall;
      if serverProgress - wallProgress < -DRIFT || serverProgress - wallProgress > DRIFT || elapsed < 0
          || a.receivedServer > LAST_SECOND - elapsed {
        failure := storage.DropCache(io);
        return;
      }
      var estimated := a.receivedServer + elapsed;
      if estimated < a.serverHighWater { estimated := a.serverHighWater; }
      if estimated < verified.value.notBefore || estimated >= verified.value.expiresAt
          || (expiry != 0 && estimated >= expiry) {
        failure := storage.DropCache(io);
        return;
      }
      claims, anchor, transient := verified, Some(TimeAnchor(estimated, start.value)), true;
      return None;
    }

    /** The checkpoint of cached authority: a clock that cannot be trusted gives the authority up. */
    method CheckpointGrant(s: Sample, wall: int, io: IO, again: IO) returns (failure: Option<RecordFailure>)
      modifies this, storage
      ensures old(anchor).None? || old(claims).None? ==>
          failure.None? && storage.State() == old(storage.State()) && claims == old(claims) && anchor == old(anchor)
      ensures old(anchor).Some? && old(claims).Some? && failure.None? ==>
                && Now(old(anchor).value, s).Some? && claims == old(claims) && anchor == old(anchor)
                && storage.State() == Apply(old(storage.State()),
                    CheckpointEdit(old(storage.record), Now(old(anchor).value, s).value, wall), io).0
      ensures old(anchor).Some? && old(claims).Some? ==>
                (failure.None? <==>
                  && Now(old(anchor).value, s).Some?
                  && Apply(old(storage.State()),
                       CheckpointEdit(old(storage.record), Now(old(anchor).value, s).value, wall), io).1.None?)
      ensures old(anchor).Some? && old(claims).Some? && failure.Some? ==> claims.None? && anchor.None?
      ensures old(anchor).Some? && old(claims).Some? && Now(old(anchor).value, s).None? ==>
                storage.State() == Apply(old(storage.State()), DropCacheEdit(old(storage.record)), again).0
    {
      if anchor.None? || claims.None? { return None; }
      var now := Now(anchor.value, s);
      if now.None? {
        claims, anchor := None, None;
        failure := storage.DropCache(again);
        return if failure.Some? then failure else Some(BadClock);
      }
      failure := storage.Checkpoint(now.value, wall, io);
      if failure.Some? {
        claims, anchor := None, None;
        if failure.value == BadClock {
          var dropped := storage.DropCache(again);
          if dropped.Some? { failure := dropped; }
        }
      }
    }
  }

  // ----- Runs -----

  /** An Offline report from cached authority, with the server mark on the medium at that moment. */
  datatype Report = Report(claims: GrantClaims, now: int, mark: Option<int>)

  /** trail lists the cached accesses the medium has held since its grant was committed. */
  datatype Life = Life(
    d: Device, claims: Option<GrantClaims>, anchor: Option<TimeAnchor>, transient: bool, last: int,
    trail: seq<CachedAccess>, reports: seq<Report>, grants: Grants)

  datatype Moment =
    | Start
    | Recall(fingerprint: Option<Text>, provider: Option<Text>, sample: Sample, io: IO, fate: Fate)
    | Grant(credential: StoredCredential, jws: Text, licenceExpiresAt: Option<int>, start: TimeAnchor, checked: int,
        sample: Sample, wall: int, io: IO, fate: Fate)
    | Save(sample: Sample, wall: int, io: IO, fate: Fate, again: IO, againFate: Fate)
    | Outage(verifying: bool, io: IO, fate: Fate)
    | Look(sample: Sample, io: IO, fate: Fate)
    | Other(op: Op, io: IO, fate: Fate)
    | End

  function AccessOn(m: Medium): Option<CachedAccess> { if m.Holds? then m.record.access else None }

  predicate SameGrant(a: CachedAccess, b: CachedAccess) {
    b == a.(serverHighWater := b.serverHighWater, wallHighWater := b.wallHighWater)
  }

  /** The trail after the medium changed: unchanged, extended by a checkpoint, restarted by a commit, or ended. */
  function Trailed(trail: seq<CachedAccess>, before: Medium, after: Medium, op: Op): seq<CachedAccess> {
    if AccessOn(after).None? then []
    else if after == before then trail
    else if op.Commit? then [AccessOn(after).value]
    else trail + [AccessOn(after).value]
  }

  function Transit(w: Life, op: Op, io: IO, fate: Fate): Life
    requires w.d.live.Some?
  {
    var d := Edited(w.d, op, io, fate);
    w.(d := d, trail := Trailed(w.trail, w.d.medium, d.medium, op))
  }

  predicate Failed(w: Life, op: Op, io: IO)
    requires w.d.live.Some?
  {
    Apply(w.d.live.value, EditFor(w.d.live.value.record, op), io).1.Some?
  }

  function Forgotten(w: Life): Life { w.(claims := None, anchor := None) }

  function DoRecall(w: Life, e: Moment): Life
    requires e.Recall? && w.d.live.Some? && e.sample.elapsed.Some?
  {
    match Restore(w.d.live.value.record, e.fingerprint, e.provider, w.grants, e.sample)
    case Keep => w.(last := e.sample.elapsed.value)
    case Drop => Transit(w, DropCache, e.io, e.fate).(last := e.sample.elapsed.value)
    case Use(claims, anchor) => w.(claims := Some(claims), anchor := Some(anchor), transient := true,
        last := e.sample.elapsed.value)
  }

  function DoGrant(w: Life, e: Moment): Life
    requires e.Grant? && w.d.live.Some? && e.jws in w.grants && Now(e.start, e.sample).Some?
  {
    var access := CachedAccess(e.jws, e.licenceExpiresAt, e.start.server, e.start.start.wall,
        Now(e.start, e.sample).value, e.wall);
    var op := Commit(w.d.live.value.record.generation, e.credential, access);
    var v := Transit(w, op, e.io, e.fate).(last := Passed(w.last, e.sample));
    if Failed(w, op, e.io) then Forgotten(v)
    else v.(claims := Some(w.grants[e.jws]), anchor := Some(e.start), transient := false)
  }

  function DoSave(w: Life, e: Moment): Life
    requires e.Save? && w.d.live.Some? && w.anchor.Some?
  {
    var last := Passed(w.last, e.sample);
    var now := Now(w.anchor.value, e.sample);
    if now.None? then Transit(Forgotten(w), DropCache, e.again, e.againFate).(last := last)
    else
      var op := Checkpoint(now.value, e.wall);
      var v := Transit(w, op, e.io, e.fate).(last := last);
      if !Failed(w, op, e.io) then v
      else if CheckpointEdit(w.d.live.value.record, now.value, e.wall).Decline?
          then Transit(Forgotten(v), DropCache, e.again, e.againFate)
      else Forgotten(v)
  }

  /** checkedSnapshot outside offline files and seats. */
  function DoLook(w: Life, e: Moment): Life
    requires e.Look? && w.d.live.Some? && w.claims.Some? && w.anchor.Some?
  {
    var last := Passed(w.last, e.sample);
    if !InstalledRecord.Answers(w.d.live.value, e.io) then Forgotten(w).(last := last)
    else
      match Now(w.anchor.value, e.sample)
      case None => Transit(Forgotten(w), DropCache, e.io, e.fate).(last := last)
      case Some(now) =>
        w.(last := last,
           reports := if ShowsOffline(w.claims.value, w.transient, now) then
                        w.reports + [Report(w.claims.value, now, if AccessOn(w.d.medium).Some?
                            then Some(AccessOn(w.d.medium).value.serverHighWater) else None)]
                      else w.reports)
  }

  predicate ShowsOffline(c: GrantClaims, transient: bool, now: int) {
    now < c.expiresAt && transient
      && c.offlineAllowed
  }

  ghost function Step(w: Life, e: Moment): Life {
    match e
    case Start => if w.d.live.None? then w.(d := RecordRuns.Step(w.d, Boot)) else w
    case End => Forgotten(w).(d := RecordRuns.Step(w.d, Stop))
    case Recall(_, _, sample, _, _) =>
      if w.d.live.Some? && !w.d.live.value.poisoned && !w.d.live.value.closed && w.claims.None? && w.anchor.None?
          && sample.elapsed.Some?
      then DoRecall(w, e) else w
    case Grant(credential, jws, licence, start, checked, sample, _, _, _) =>
      if w.d.live.Some? && OnTime(w.last, sample) && Now(start, sample).Some?
         && Verify(w.grants, jws, [], checked, credential.credentialExpiresAt, licence).Some?
             && credential.licenceID == w.grants[jws].subject
      then DoGrant(w, e) else w
    case Save(sample, _, _, _, _, _) =>
      if w.d.live.Some? && w.claims.Some? && w.anchor.Some? && OnTime(w.last, sample) then DoSave(w, e) else w
    case Outage(verifying, io, fate) =>
      if w.d.live.None? then w
      else if verifying then Transit(w.(claims := None, transient := true), DropCache, io, fate)
      else w.(transient := true)
    case Look(sample, _, _) =>
      if w.d.live.Some? && w.claims.Some? && w.anchor.Some? && OnTime(w.last, sample) then DoLook(w, e) else w
    case Other(op, io, fate) =>
      if w.d.live.Some? && !op.Commit? && !op.Checkpoint? then Transit(Forgotten(w), op, io, fate) else w
  }

  ghost function Run(w: Life, moments: seq<Moment>): Life
    decreases |moments|
  {
    if moments == [] then w else Run(Step(w, moments[0]), moments[1..])
  }

  function Fresh(scope: Scope, provider: Text, installation: Identity, grants: Grants): Life {
    Life(Created(scope, provider, installation).(live := None), None, None, false, 0, [], [], grants)
  }

  // ----- What every step keeps -----

  predicate WithinDrift(a: CachedAccess) {
    -DRIFT <= (a.serverHighWater - a.receivedServer) - (a.wallHighWater - a.receivedWall) <= DRIFT
  }

  predicate NotBehind(a: CachedAccess, b: CachedAccess) {
    SameGrant(a, b) && a.serverHighWater <= b.serverHighWater && a.wallHighWater <= b.wallHighWater
  }

  ghost predicate Ordered(trail: seq<CachedAccess>) {
    && (forall j, k :: 0 <= j < k < |trail| ==> NotBehind(trail[j], trail[k]))
    && (forall k :: 0 < k < |trail| ==> WithinDrift(trail[k]))
  }

  predicate TrailEnds(trail: seq<CachedAccess>, m: Medium) {
    AccessOn(m).Some? ==> trail != [] && trail[|trail| - 1] == AccessOn(m).value
  }

  predicate ShortLived(c: GrantClaims) { c.expiresAt <= c.issuedAt + (if c.offlineAllowed then DAY else 300) }

  predicate ClockLeads(a: TimeAnchor, m: Medium, last: int) {
    last >= a.start.elapsed && (AccessOn(m).Some? ==> AccessOn(m).value.serverHighWater <= Reached(a, last))
  }

  predicate TrueReport(r: Report) {
    && r.now < r.claims.expiresAt <= r.claims.issuedAt + DAY && r.claims.offlineAllowed
    && (r.mark.Some? ==> r.mark.value <= r.now)
  }

  ghost predicate Inv(w: Life) {
    && RecordRuns.Inv(w.d)
    && Ordered(w.trail) && TrailEnds(w.trail, w.d.medium)
    && (w.claims.Some? ==> ShortLived(w.claims.value))
    && (w.anchor.Some? ==> w.d.live.Some? && ClockLeads(w.anchor.value, w.d.medium, w.last))
    && (forall k :: 0 <= k < |w.reports| ==> TrueReport(w.reports[k]))
  }

  /** What a transition does to the cached access: it ends it, starts a new one, or moves its marks forward. */
  lemma EditsMoveMarksForward(r: Record, op: Op)
    requires EditFor(r, op).Put? && Exclusive(r)
    ensures var t := Stamped(EditFor(r, op).record);
            && (op.Commit? ==> t.access == Some(op.access))
            && (!op.Commit? && t.access.Some? ==>
                  && op.Checkpoint? && r.access.Some? && NotBehind(r.access.value, t.access.value)
                  && WithinDrift(t.access.value) && t.access.value.serverHighWater == op.server)
  {}

  lemma TransitLands(w: Life, op: Op, io: IO, fate: Fate)
    requires Inv(w) && w.d.live.Some?
    ensures var e := Edited(w.d, op, io, fate);
            && RecordRuns.Inv(e) && e.live.Some?
            && (e.medium == w.d.medium || e.medium == Unusable
                || (EditFor(w.d.live.value.record, op).Put?
                    && e.medium == Holds(Stamped(EditFor(w.d.live.value.record, op).record))
                    && w.d.medium == Holds(w.d.live.value.record)))
  {
    RecordRuns.StepKeeps(w.d, Do(op, io, fate));
    hide EditFor, BeginEdit, SentInOrder, AuthorisedInOrder, Exclusive;
  }

  lemma ExtendedStaysOrdered(trail: seq<CachedAccess>, a: CachedAccess)
    requires Ordered(trail) && trail != [] && NotBehind(trail[|trail| - 1], a) && WithinDrift(a)
    ensures Ordered(trail + [a])
  {
    var longer := trail + [a];
    forall j, k | 0 <= j < k < |longer| ensures NotBehind(longer[j], longer[k]) {
      if k == |trail| && j < |trail| - 1 { assert NotBehind(trail[j], trail[|trail| - 1]); }
    }
  }

  lemma TransitKeepsTrail(w: Life, op: Op, io: IO, fate: Fate)
    requires Inv(w) && w.d.live.Some?
    ensures var v := Transit(w, op, io, fate);
            RecordRuns.Inv(v.d) && v.d.live.Some? && Ordered(v.trail) && TrailEnds(v.trail, v.d.medium)
  {
    TransitLands(w, op, io, fate);
    var v := Transit(w, op, io, fate);
    if EditFor(w.d.live.value.record, op).Put? && w.d.medium == Holds(w.d.live.value.record) {
      EditsMoveMarksForward(w.d.live.value.record, op);
    }
    hide Edited, EditFor, RecordRuns.Inv;
    if AccessOn(v.d.medium).Some? && v.d.medium != w.d.medium && !op.Commit? {
      ExtendedStaysOrdered(w.trail, AccessOn(v.d.medium).value);
    }
  }

  /** A transition that forgets the authority held in memory. */
  lemma ForgettingKeeps(w: Life, op: Op, io: IO, fate: Fate, last: int)
    requires Inv(w) && w.d.live.Some? && w.anchor.None?
    ensures Inv(Transit(w, op, io, fate))
    ensures Inv(Transit(w, op, io, fate).(last := last)) && Inv(Forgotten(Transit(w, op, io, fate)).(last := last))
  {
    TransitKeepsTrail(w, op, io, fate);
    hide Edited, Trailed, Ordered, RecordRuns.Inv;
  }

  lemma PassingKeeps(w: Life, last: int)
    requires Inv(w) && last >= w.last
    ensures Inv(w.(last := last)) && Inv(Forgotten(w).(last := last))
  {
    if w.anchor.Some? { ReachedGrows(w.anchor.value, w.last, last); }
    hide RecordRuns.Inv, Ordered;
  }

  lemma RecallKeeps(w: Life, e: Moment)
    requires Inv(w) && e.Recall? && w.d.live.Some? && w.claims.None? && w.anchor.None? && e.sample.elapsed.Some?
    requires !w.d.live.value.poisoned && !w.d.live.value.closed
    ensures Inv(DoRecall(w, e))
  {
    ForgettingKeeps(w, DropCache, e.io, e.fate, e.sample.elapsed.value);
    var r := w.d.live.value.record;
    if Restore(r, e.fingerprint, e.provider, w.grants, e.sample).Use? {
      RestoredClockIsNotBehind(r, e.fingerprint, e.provider, w.grants, e.sample);
      RecalledIsShortLived(r, e.fingerprint, e.provider, w.grants, e.sample);
    }
    hide Transit, Restore, Ordered, SentInOrder, AuthorisedInOrder, Exclusive;
  }

  lemma RecalledIsShortLived(r: Record, fingerprint: Option<Text>, provider: Option<Text>, grants: Grants, s: Sample)
    requires Restore(r, fingerprint, provider, grants, s).Use?
    ensures ShortLived(Restore(r, fingerprint, provider, grants, s).claims)
  {
    var a := r.access.value;
    var expiry := if r.credential.value.expiresAt.Some? then r.credential.value.expiresAt.value else 0;
    WindowIsShort(grants[a.jws], a.receivedServer, expiry, a.licenceExpiresAt);
    hide InWindow, Estimate;
  }

  lemma GrantKeeps(w: Life, e: Moment)
    requires Inv(w) && e.Grant? && w.d.live.Some? && OnTime(w.last, e.sample) && Now(e.start, e.sample).Some?
    requires Verify(w.grants, e.jws, [], e.checked, e.credential.credentialExpiresAt,
        e.licenceExpiresAt).Some?
    ensures Inv(DoGrant(w, e))
  {
    var access := CachedAccess(e.jws, e.licenceExpiresAt, e.start.server, e.start.start.wall,
        Now(e.start, e.sample).value, e.wall);
    var op := Commit(w.d.live.value.record.generation, e.credential, access);
    TransitKeepsTrail(w, op, e.io, e.fate);
    WindowIsShort(w.grants[e.jws], e.checked, e.credential.credentialExpiresAt, e.licenceExpiresAt);
    ReadingIsReached(e.start, e.sample);
    TransitLands(w, op, e.io, e.fate);
    SuccessLands(w, op, e.io, e.fate);
    if EditFor(w.d.live.value.record, op).Put? && w.d.medium == Holds(w.d.live.value.record) {
      EditsMoveMarksForward(w.d.live.value.record, op);
    }
    hide Edited, EditFor, Ordered, RecordRuns.Inv, InWindow, Reached, Trailed, Apply;
  }

  lemma SuccessLands(w: Life, op: Op, io: IO, fate: Fate)
    requires Inv(w) && w.d.live.Some? && !EditFor(w.d.live.value.record, op).Check?
    ensures !Failed(w, op, io) ==>
              EditFor(w.d.live.value.record, op).Put?
                  && Edited(w.d, op, io, fate).medium == Holds(Stamped(EditFor(w.d.live.value.record, op).record))
  {
    hide EditFor, BeginEdit, RecordRuns.Inv;
  }

  /** The authority stays in memory only if the transition left the medium's mark where this clock has been. */
  lemma CheckpointedLeads(w: Life, e: Moment)
    requires Inv(w) && e.Save? && w.d.live.Some? && w.anchor.Some? && OnTime(w.last, e.sample)
        && Now(w.anchor.value, e.sample).Some?
    ensures var op := Checkpoint(Now(w.anchor.value, e.sample).value, e.wall);
            ClockLeads(w.anchor.value, Edited(w.d, op, e.io, e.fate).medium, Passed(w.last, e.sample))
  {
    var op := Checkpoint(Now(w.anchor.value, e.sample).value, e.wall);
    ReadingIsReached(w.anchor.value, e.sample);
    ReachedGrows(w.anchor.value, w.last, Passed(w.last, e.sample));
    TransitLands(w, op, e.io, e.fate);
    if EditFor(w.d.live.value.record, op).Put? && w.d.medium == Holds(w.d.live.value.record) {
      EditsMoveMarksForward(w.d.live.value.record, op);
    }
    hide Edited, EditFor, RecordRuns.Inv, Reached;
  }

  lemma SaveKeeps(w: Life, e: Moment)
    requires Inv(w) && e.Save? && w.d.live.Some? && w.claims.Some? && w.anchor.Some? && OnTime(w.last, e.sample)
    ensures Inv(DoSave(w, e))
  {
    var last := Passed(w.last, e.sample);
    var now := Now(w.anchor.value, e.sample);
    if now.None? {
      PassingKeeps(w, w.last);
      ForgettingKeeps(Forgotten(w), DropCache, e.again, e.againFate, last);
    } else {
      var op := Checkpoint(now.value, e.wall);
      var v := Transit(w, op, e.io, e.fate).(last := last);
      CheckpointedLeads(w, e);
      TransitKeepsTrail(w, op, e.io, e.fate);
      assert Inv(v) by { hide Edited, Ordered, RecordRuns.Inv, Reached, Trailed; }
      PassingKeeps(v, last);
      ForgettingKeeps(Forgotten(v), DropCache, e.again, e.againFate, last);
    }
    hide Transit, Inv;
  }

  lemma LookKeeps(w: Life, e: Moment)
    requires Inv(w) && e.Look? && w.d.live.Some? && w.claims.Some? && w.anchor.Some? && OnTime(w.last, e.sample)
    ensures Inv(DoLook(w, e))
  {
    PassingKeeps(w, w.last);
    PassingKeeps(w, Passed(w.last, e.sample));
    ForgettingKeeps(Forgotten(w), DropCache, e.io, e.fate, Passed(w.last, e.sample));
    if Now(w.anchor.value, e.sample).Some? {
      ReadingIsReached(w.anchor.value, e.sample);
      ReachedGrows(w.anchor.value, w.last, e.sample.elapsed.value);
    }
    hide Transit, Ordered, RecordRuns.Inv, Reached, NowWithWall;
  }

  lemma OutageKeeps(w: Life, verifying: bool, io: IO, fate: Fate)
    requires Inv(w) && w.d.live.Some?
    ensures Inv(if verifying then Transit(w.(claims := None, transient := true), DropCache, io, fate)
        else w.(transient := true))
  {
    if verifying {
      var u := w.(claims := None, transient := true);
      TransitKeepsTrail(u, DropCache, io, fate);
      TransitLands(u, DropCache, io, fate);
      if EditFor(w.d.live.value.record, DropCache).Put? && w.d.medium == Holds(w.d.live.value.record) {
        EditsMoveMarksForward(w.d.live.value.record, DropCache);
      }
    }
    hide Edited, EditFor, Ordered, RecordRuns.Inv, Reached, Trailed;
  }

  lemma StepKeeps(w: Life, e: Moment)
    requires Inv(w)
    ensures Inv(Step(w, e))
  {
    hide DoRecall, DoGrant, DoSave, DoLook, Transit, Restore, InWindow, NowWithWall;
    match e {
      case Start => RecordRuns.StepKeeps(w.d, Boot);
      case End => RecordRuns.StepKeeps(w.d, Stop);
      case Recall(_, _, _, _, _) => if Step(w, e) != w { RecallKeeps(w, e); }
      case Grant(_, _, _, _, _, _, _, _, _) => if Step(w, e) != w { GrantKeeps(w, e); }
      case Save(_, _, _, _, _, _) => if Step(w, e) != w { SaveKeeps(w, e); }
      case Outage(verifying, io, fate) => if w.d.live.Some? { OutageKeeps(w, verifying, io, fate); }
      case Look(_, _, _) => if Step(w, e) != w { LookKeeps(w, e); }
      case Other(op, io, fate) =>
        PassingKeeps(w, w.last);
        if w.d.live.Some? { ForgettingKeeps(Forgotten(w), op, io, fate, w.last); }
    }
    hide Ordered, RecordRuns.Inv, Reached, EditFor, Decodable;
  }

  lemma ReportsAreOnlyAdded(w: Life, e: Moment)
    ensures w.reports <= Step(w, e).reports
  {
    hide Edited, Trailed, Restore, InWindow, NowWithWall, Verify, EditFor, Apply;
  }

  lemma {:induction false} RunKeeps(w: Life, moments: seq<Moment>)
    requires Inv(w)
    ensures Inv(Run(w, moments)) && w.reports <= Run(w, moments).reports
    decreases |moments|
  {
    if moments != [] {
      StepKeeps(w, moments[0]);
      ReportsAreOnlyAdded(w, moments[0]);
      RunKeeps(Step(w, moments[0]), moments[1..]);
    }
  }

  // ----- The results -----

  /** Over every run of commits, checkpoints, restarts, failed writes and everything else: the marks recorded for one
      cached grant never fall, every checkpoint recorded after the commit keeps server and wall progress within 30
      seconds of each other, and the medium's cached access is the last one recorded. */
  lemma MarksNeverFall(scope: Scope, provider: Text, installation: Identity, grants: Grants, moments: seq<Moment>)
    ensures var w := Run(Fresh(scope, provider, installation, grants), moments);
            && (forall j, k :: 0 <= j < k < |w.trail| ==> NotBehind(w.trail[j], w.trail[k]))
            && (forall k :: 0 < k < |w.trail| ==> WithinDrift(w.trail[k]))
            && TrailEnds(w.trail, w.d.medium)
  {
    RunKeeps(Fresh(scope, provider, installation, grants), moments);
  }

  /** Offline access from cached authority is only ever reported strictly before the grant expires, at most a day after it
      was issued, only if the grant allows it, and never at a time behind the server mark then on the medium. */
  lemma OfflineReportsAreLive(scope: Scope, provider: Text, installation: Identity, grants: Grants,
      moments: seq<Moment>)
    ensures var w := Run(Fresh(scope, provider, installation, grants), moments);
            forall k :: 0 <= k < |w.reports| ==>
              var r := w.reports[k];
              && r.now < r.claims.expiresAt <= r.claims.issuedAt + DAY && r.claims.offlineAllowed
              && (r.mark.Some? ==> r.mark.value <= r.now)
  {
    RunKeeps(Fresh(scope, provider, installation, grants), moments);
    var w := Run(Fresh(scope, provider, installation, grants), moments);
    forall k | 0 <= k < |w.reports| ensures TrueReport(w.reports[k]) {}
    hide Inv;
  }

  /** The reports of this machine are those of the snapshot the client computes. */
  lemma SnapshotAgrees(s: AccessState, now: int)
    requires s.claims.Some? && s.anchor.Some?
    ensures SnapshotAt(s, Some(now)).access == Offline <==> ShowsOffline(s.claims.value, s.transient, now)
  {}

  /** A look reports Offline exactly if storage answers, the clock can be read, the grant has not expired and allows it,
      and an outage, or a restart, is being bridged. */
  lemma LookReportsIff(w: Life, e: Moment)
    requires e.Look? && w.d.live.Some? && w.claims.Some? && w.anchor.Some? && OnTime(w.last, e.sample)
    ensures var now, held := Now(w.anchor.value, e.sample), w.d.live.value;
            |Step(w, e).reports| == |w.reports| +
              if !held.closed && !held.poisoned && e.io.checks && now.Some? && now.value < w.claims.value.expiresAt
                 && w.transient && w.claims.value.offlineAllowed then 1 else 0
  {
    hide Now, Edited;
  }
}
