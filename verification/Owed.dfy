/** When the access operations of sdk/go/access.go and sdk/go/sessions.go must succeed, and what a refusal means, from
    the authority that each section finds and the clock reading it takes. */
module Owed {
  import opened Common
  import opened Text
  import opened Storage
  import opened Clock
  import opened Access
  import opened Decisions
  import Fence

  // ----- Live authority -----

  /** The file has not expired at a time that both clocks allow. */
  ghost predicate FileLives(o: OfflineRuntime, sample: Sample) {
    && o.claims.Some? && o.anchor.Some?
    && var reading := NowWithWall(o.anchor.value, sample);
    && reading.Some? && o.wallHighWater <= reading.value.wall + DRIFT && reading.value.now < o.claims.value.expiresAt
  }

  /** Neither the seat nor the licence it is for has expired. */
  ghost predicate SeatLives(seat: SessionRuntime, licenceExpiresAt: Option<int>, sample: Sample) {
    && Now(seat.anchor, sample).Some? && Now(seat.anchor, sample).value < seat.expiresAt
    && (licenceExpiresAt.None? || Now(seat.anchor, sample).value < licenceExpiresAt.value)
  }

  /** The grant has not expired; it is fresh, or an outage is bridged and the grant allows that. */
  ghost predicate GrantLives(s: AccessState, sample: Sample) {
    && s.claims.Some? && s.anchor.Some? && Now(s.anchor.value, sample).Some?
    && var now := Now(s.anchor.value, sample).value;
    && now < s.claims.value.expiresAt
    && (if s.transient then s.claims.value.offlineAllowed else now < s.claims.value.refreshAfter)
  }

  /** An authorised file rules alone; then a floating licence's seat; then the grant. */
  ghost predicate Lives(s: AccessState, sample: Sample) {
    if OfflineAuthorized(s) then FileLives(s.offline.value, sample)
    else if s.sessionRequired then s.session.Some? && SeatLives(s.session.value, s.sessionLicenceExpiresAt, sample)
    else GrantLives(s, sample)
  }

  ghost function Listed(s: AccessState): map<Text, bool> {
    if OfflineAuthorized(s) then
      if s.offline.value.claims.Some? then s.offline.value.claims.value.entitlements else map[]
    else if s.sessionRequired then (if s.session.Some? then s.session.value.entitlements else map[])
    else if s.claims.Some? then s.claims.value.entitlements
    else map[]
  }

  /** The state holds live authority at this reading, and that authority enables the feature. */
  ghost predicate Entitles(s: AccessState, sample: Sample, feature: Text) {
    Lives(s, sample) && Enables(Listed(s), feature)
  }

  function SeatReport(s: AccessState): Snapshot
    requires s.session.Some?
  {
    Snapshot(Online, s.session.value.entitlements, false, s.credential.None?, Some(s.session.value.expiresAt), 0)
  }

  /** The snapshot that live authority is reported by. */
  ghost function Report(s: AccessState, sample: Sample): Snapshot
    requires Lives(s, sample)
  {
    if OfflineAuthorized(s) then
      var c, now := s.offline.value.claims.value, NowWithWall(s.offline.value.anchor.value, sample).value.now;
      Snapshot(Offline, c.entitlements, true, false, Some(c.expiresAt), c.expiresAt - now)
    else if s.sessionRequired then
      SeatReport(s)
    else
      var c, now := s.claims.value, Now(s.anchor.value, sample).value;
      var ends := s.credential.Some? && s.credential.value.credentialExpiresAt != 0
        && s.credential.value.credentialExpiresAt <= SaturatingAdd(now, DAY);
      Snapshot(if s.transient then Offline else Online, c.entitlements, false, ends, Some(c.expiresAt),
        if c.offlineAllowed then c.expiresAt - now else 0)
  }

  const DAY := 86400

  /** A look is usable exactly while the authority in charge lives, and then shows exactly that authority. */
  lemma LookIsUsableIff(s: AccessState, sample: Sample)
    ensures var snapshot := CheckedSnapshot(s, sample).1;
            && (snapshot.access == Online || snapshot.access == Offline <==> Lives(s, sample))
            && (Lives(s, sample) ==> snapshot == Report(s, sample))
            && (!Lives(s, sample) ==> snapshot.entitlements == map[])
            && (snapshot.offlineFileMode <==> OfflineAuthorized(s))
  {
    hide NowWithWall;
  }

  /** Without an authorised file or a floating licence, a look denies outright exactly when there is neither a credential
      to refresh with nor a grant whose clock can be read. */
  lemma LookDeniesIff(s: AccessState, sample: Sample)
    requires !OfflineAuthorized(s) && !s.sessionRequired
    ensures CheckedSnapshot(s, sample).1.access == Denied <==> !Refreshable(s, sample)
    ensures !Refreshable(s, sample) ==> !Lives(s, sample)
  {
    hide NowWithWall;
  }

  ghost predicate Refreshable(s: AccessState, sample: Sample) {
    s.credential.Some? || (s.claims.Some? && s.anchor.Some? && Now(s.anchor.value, sample).Some?)
  }

  lemma LookKeepsLive(s: AccessState, sample: Sample)
    requires Lives(s, sample) && !OfflineAuthorized(s)
    ensures CheckedSnapshot(s, sample).0 == s
  {
    hide NowWithWall;
  }

  lemma ReportShowsListed(s: AccessState, sample: Sample)
    ensures Lives(s, sample) ==> Report(s, sample).entitlements == Listed(s)
  {
    hide NowWithWall;
  }

  /** What a section's look answers, when it is owed a usable answer. */
  lemma LookAnswersIff(found: Found, feature: Text)
    ensures var s := Entered(found);
            && (LookAnswer(found).Ok? <==> Enters(found))
            && (Enters(found) && Entitles(s, found.sample, feature) <==>
                  LookAnswer(found).Ok? && LookAnswer(found).value.HasFeature(feature))
            && (Enters(found) && Lives(s, found.sample) ==> LookAnswer(found).value == Report(s, found.sample))
            && (Enters(found) ==>
                  && LookAnswer(found).value.offlineFileMode == OfflineAuthorized(s)
                  && (Lives(s, found.sample) <==>
                        LookAnswer(found).value.access == Online || LookAnswer(found).value.access == Offline))
  {
    LookIsUsableIff(Entered(found), found.sample);
    ReportShowsListed(Entered(found), found.sample);
    hide CheckedSnapshot, Lives, Report, Listed, Synced;
    hide OfflineAuthorized;
  }

  // ----- Seat requests -----

  /** The ID a start asks with: the one whose reply was lost, unless that is too long ago. */
  function StartID(s: AccessState, trip: Trip): Text {
    if s.pendingSessionID.Some? && !trip.pendingTooOld then s.pendingSessionID.value else trip.newID
  }

  /** The section holds no live seat and may ask for one. */
  ghost predicate MayAsk(s: AccessState, explicit: bool, sample: Sample) {
    && !OfflineAuthorized(s) && s.sessionRequired && !Lives(s, sample)
    && (explicit || !s.sessionDisabled) && s.credential.Some?
  }

  /** The reply to this request is a seat that lives when it is installed, in the generation it was asked in. */
  ghost predicate Seats(generation: nat, id: Text, found: Found, reply: SeatReply) {
    && Enters(found) && Entered(found).generation == generation && !found.cancelled
    && SameSeat(reply, id, 1) && SeatLives(Seat(reply), Entered(found).sessionLicenceExpiresAt, found.sample)
  }

  /** A start gives the feature: what it finds lives, or what it asks for is granted. */
  ghost predicate StartGives(generation: nat, explicit: bool, first: Found, trip: Trip, last: Found, feature: Text) {
    var s := Entered(first);
    && Enters(first) && s.generation == generation
    && (if MayAsk(s, explicit, first.sample) then
          !trip.startFails && Seats(generation, StartID(s, trip), last, trip.reply)
            && Enables(trip.reply.entitlements, feature)
        else Entitles(s, first.sample, feature))
  }

  lemma SeatLookIff(s: AccessState, sample: Sample)
    ensures var (t, snapshot) := SessionSnapshot(s, sample);
            var lives := s.session.Some? && SeatLives(s.session.value, s.sessionLicenceExpiresAt, sample);
            && (snapshot.access == Online <==> lives) && snapshot.access != Offline
            && (lives ==> t == s && snapshot == SeatReport(s))
            && (!lives ==> snapshot.entitlements == map[])
            && (t == s || t == s.(session := None))
  {
    hide NowWithWall;
  }

  lemma SeatStartAsksIff(s: AccessState, explicit: bool, trip: Trip, sample: Sample)
    requires !OfflineAuthorized(s) && s.sessionRequired
    ensures var start := StartSeat(s, explicit, trip.newID, trip.pendingTooOld, sample);
            var lives := s.session.Some? && SeatLives(s.session.value, s.sessionLicenceExpiresAt, sample);
            && (start.Ask? <==> !lives && (explicit || !s.sessionDisabled) && s.credential.Some?)
            && (start.Ask? ==> start.id == StartID(s, trip))
            && (start.Answer? <==> lives)
            && (lives ==> start.snapshot == SeatReport(s))
  {
    SeatLookIff(if explicit then s.(sessionDisabled := false) else s, sample);
    hide CheckedSnapshot, SessionSnapshot, SeatLives, OfflineAuthorized;
  }

  lemma StartAsksIff(s: AccessState, explicit: bool, trip: Trip, sample: Sample)
    ensures var start := StartSeat(s, explicit, trip.newID, trip.pendingTooOld, sample);
            && (start.Ask? <==> MayAsk(s, explicit, sample))
            && (start.Ask? ==> start.id == StartID(s, trip))
            && (Lives(s, sample) ==> start.Answer? && start.snapshot == Report(s, sample))
            && (start.Answer? && !Lives(s, sample) ==> start.snapshot.entitlements == map[])
  {
    if OfflineAuthorized(s) || !s.sessionRequired {
      LookIsUsableIff(s, sample);
      hide CheckedSnapshot, SessionSnapshot, Lives, Report, StartID;
    } else {
      SeatStartAsksIff(s, explicit, trip, sample);
      hide StartSeat, StartID, SeatLives, OfflineAuthorized;
    }
  }

  /** The snapshot of the seat that a reply gives. */
  function ReplyReport(s: AccessState, reply: SeatReply): Snapshot
    requires reply.Granted?
  {
    Snapshot(Online, reply.entitlements, false, s.credential.None?, Some(reply.expiresAt), 0)
  }

  lemma SeatAnswersIff(generation: nat, id: Text, found: Found, reply: SeatReply)
    ensures SeatAnswer(generation, id, found, reply).Ok? <==> Seats(generation, id, found, reply)
    ensures Seats(generation, id, found, reply) ==>
              SeatAnswer(generation, id, found, reply) == Ok(ReplyReport(Entered(found), reply))
  {
    hide NowWithWall, Synced;
  }

  /** A renewal is answered with a seat exactly if the reply is for it, the seat still waits for it in the generation it
      was asked in, and the new seat lives. */
  lemma RenewalAnswersIff(generation: nat, id: Text, number: nat, found: Found, reply: SeatReply)
    ensures var s, r := Entered(found), RenewalAnswer(generation, id, number, found, reply);
            var gives :=
              && Enters(found) && s.generation == generation && !found.cancelled && SameSeat(reply, id, number)
              && s.session.Some? && s.session.value.id == id && s.session.value.pendingSequence == number
              && SeatLives(Seat(reply), s.sessionLicenceExpiresAt, found.sample);
            && (r.Ok? <==> gives)
            && (gives ==> r == Ok(ReplyReport(s, reply)))
  {
    hide NowWithWall, Synced;
  }

  lemma StartGivesIff(generation: nat, explicit: bool, first: Found, trip: Trip, last: Found, feature: Text)
    ensures var r := SerializedAnswer(generation, explicit, first, trip, last);
            r.Ok? && r.value.HasFeature(feature) <==> StartGives(generation, explicit, first, trip, last, feature)
  {
    var s := Entered(first);
    StartAsksIff(s, explicit, trip, first.sample);
    ReportShowsListed(s, first.sample);
    SeatAnswersIff(generation, StartID(s, trip), last, trip.reply);
    hide StartSeat, SeatAnswer, Lives, Listed, Report, MayAsk, StartID, Synced, SeatLives;
  }

  /** The licence's policy is known not to be floating, or a file rules. */
  predicate NoSeatNeeded(s: AccessState) { OfflineAuthorized(s) || (s.sessionPolicyKnown && !s.sessionRequired) }

  /** The generation that the sections before the request agree on. */
  ghost predicate Agrees(run: SeatRun) {
    && Enters(run.look) && Enters(run.gate) && !run.gate.cancelled
    && Entered(run.gate).generation == Entered(run.look).generation
  }

  ghost predicate SessionGives(run: SeatRun, feature: Text) {
    var s := Entered(run.first);
    && Enters(run.first) && !run.first.cancelled
    && (if NoSeatNeeded(s) then Entitles(s, run.first.sample, feature)
        else
          && (s.sessionPolicyKnown || (s.credential.Some? && run.refreshed.None?)) && Agrees(run)
          && StartGives(Entered(run.look).generation, true, run.begin, run.trip, run.end, feature))
  }

  lemma SessionGivesIff(run: SeatRun, feature: Text)
    ensures StartSessionAnswer(run).Ok? && StartSessionAnswer(run).value.HasFeature(feature) <==>
              SessionGives(run, feature)
  {
    LookAnswersIff(run.first, feature);
    if Enters(run.look) {
      StartGivesIff(Entered(run.look).generation, true, run.begin, run.trip, run.end, feature);
    }
    hide LookAnswer, SerializedAnswer, StartGives, Entitles, Entered, OfflineAuthorized, Lives, Report;
  }

  // ----- RequireAccess -----

  /** Whether the first section decides by itself, by its seat and a second look, by a seat request, or leaves the
      decision to the section after a refresh. */
  datatype Path = AtOnce | Twice | BySeat | AfterRefresh

  ghost function PathOf(s: AccessState, sample: Sample): Path {
    if OfflineAuthorized(s) then AtOnce
    else if s.sessionRequired then (if Lives(s, sample) then Twice else BySeat)
    else if (Lives(s, sample) && !s.transient) || !Refreshable(s, sample) then AtOnce
    else AfterRefresh
  }

  ghost predicate Begins(run: RequireRun) { !run.cancelled && Enters(run.first) && !run.first.cancelled }

  /** The refresh went through, or failed only for the moment, and the caller is still there. */
  ghost predicate Refreshed(run: RequireRun) {
    && (run.refreshed.None? || run.refreshed == Some(TransientError)) && !run.last.cancelled && Enters(run.last)
  }

  ghost predicate RequireGives(run: RequireRun, feature: Text) {
    var s := Entered(run.first);
    && Begins(run)
    && match PathOf(s, run.first.sample)
       case AtOnce => Entitles(s, run.first.sample, feature)
       case Twice =>
         && Entitles(s, run.first.sample, feature) && Lives(s, run.second.sample)
         && Readable(run.first.store, run.second.fault) && !run.second.cancelled
       case BySeat => !s.sessionDisabled && SessionGives(run.seat, feature)
       case AfterRefresh => Refreshed(run) && Entitles(Entered(run.last), run.last.sample, feature)
  }

  /** A section that found a live seat finds the same one at its second look. */
  lemma SecondLookFinds(found: Found, glance: Glance)
    requires Enters(found) && Lives(Entered(found), found.sample) && !OfflineAuthorized(Entered(found))
    ensures Enters(Again(found, glance)) <==> Readable(found.store, glance.fault)
    ensures Enters(Again(found, glance)) ==> Entered(Again(found, glance)) == Entered(found)
  {
    LookKeepsLive(Entered(found), found.sample);
    hide CheckedSnapshot, Lives, OfflineAuthorized;
  }

  lemma LooksKeepPolicy(s: AccessState, sample: Sample)
    ensures var t := CheckedSnapshot(s, sample).0;
            && t.sessionRequired == s.sessionRequired && t.sessionDisabled == s.sessionDisabled
            && t.credential == s.credential && t.transient == s.transient && t.failure == s.failure
            && t.unsupported == s.unsupported
  {
    SeatLookOnlyDrops(s, sample);
    hide NowWithWall, SessionSnapshot;
  }

  /** RequireAccess succeeds exactly when live authority with the feature is found on its path, and then answers the
      report of that authority. */
  lemma AccessIsGivenIff(run: RequireRun, feature: Text)
    ensures RequireAnswer(run, feature).Ok? <==> RequireGives(run, feature)
    ensures RequireGives(run, feature) ==>
              var s := Entered(run.first);
              match PathOf(s, run.first.sample)
              case AtOnce => RequireAnswer(run, feature) == Ok(Report(s, run.first.sample))
              case Twice => RequireAnswer(run, feature) == Ok(Report(s, run.second.sample))
              case BySeat => RequireAnswer(run, feature) == StartSessionAnswer(run.seat)
              case AfterRefresh => RequireAnswer(run, feature) == Ok(Report(Entered(run.last), run.last.sample))
  {
    var s := Entered(run.first);
    LookAnswersIff(run.first, feature);
    LookAnswersIff(run.last, feature);
    SessionGivesIff(run.seat, feature);
    LooksKeepPolicy(s, run.first.sample);
    LookIsUsableIff(s, run.first.sample);
    if !OfflineAuthorized(s) && !s.sessionRequired { LookDeniesIff(s, run.first.sample); }
    if Enters(run.first) && Lives(s, run.first.sample) && !OfflineAuthorized(s) {
      SecondLookFinds(run.first, run.second);
      LookAnswersIff(Again(run.first, run.second), feature);
    }
    hide StartSessionAnswer, SessionGives, CheckedSnapshot, Synced, Lives, Listed, Refreshable, OfflineAuthorized;
  }

  // ----- What a refusal means -----

  /** What a seat request that answers NotActivated found. */
  ghost predicate NothingToSeat(run: SeatRun) {
    || run.refreshed == Some(NotActivated)
    || (Enters(run.first) && Entered(run.first).credential.None?)
    || (Enters(run.begin) && Entered(run.begin).credential.None? && !Lives(Entered(run.begin), run.begin.sample))
  }

  lemma SeatlessMeans(run: SeatRun)
    requires StartSessionAnswer(run) == Err(NotActivated)
    ensures NothingToSeat(run)
  {
    StartAsksIff(Entered(run.begin), true, run.trip, run.begin.sample);
    hide CheckedSnapshot, SessionSnapshot, Lives, Synced, OfflineAuthorized;
  }

  /** A caller is told that access is not activated only where the section that decides holds no live authority. */
  lemma NotActivatedMeans(run: RequireRun, feature: Text)
    requires RequireAnswer(run, feature) == Err(NotActivated)
    ensures var s := Entered(run.first);
            && Begins(run)
            && match PathOf(s, run.first.sample)
               case AtOnce => !Lives(s, run.first.sample) && s.credential.None? && !OfflineAuthorized(s)
               case Twice => false
               case BySeat => !Lives(s, run.first.sample) && NothingToSeat(run.seat)
               case AfterRefresh =>
                 run.refreshed == Some(NotActivated) || (Refreshed(run) && !Lives(Entered(run.last), run.last.sample))
  {
    var s := Entered(run.first);
    LookAnswersIff(run.first, feature);
    LookAnswersIff(run.last, feature);
    LooksKeepPolicy(s, run.first.sample);
    LookIsUsableIff(s, run.first.sample);
    if !OfflineAuthorized(s) && !s.sessionRequired { LookDeniesIff(s, run.first.sample); }
    if StartSessionAnswer(run.seat) == Err(NotActivated) { SeatlessMeans(run.seat); }
    hide StartSessionAnswer, NothingToSeat, CheckedSnapshot, Synced, Lives, Listed, OfflineAuthorized, EntryFailure;
  }

  /** What a seat request that gives no feature, and reports that, came back with: a session that is not live or does
      not list it, or a refresh that had failed so. */
  ghost predicate SeatLacks(run: SeatRun, feature: Text) {
    if StartSessionAnswer(run).Ok? then !SessionGives(run, feature) else run.refreshed == Some(FeatureUnavailable)
  }

  lemma SeatLacksFeature(run: SeatRun, feature: Text)
    requires match StartSessionAnswer(run)
             case Ok(session) => !session.HasFeature(feature)
             case Err(failure) => failure == FeatureUnavailable
    ensures SeatLacks(run, feature)
  {
    SessionGivesIff(run, feature);
    hide SessionGives, CheckedSnapshot, SessionSnapshot, Synced;
  }

  /** A caller is told that the feature is unavailable only where live authority does not list it, where a seat request
      came back without it, or where that is what a refresh has failed with. */
  lemma FeatureUnavailableMeans(run: RequireRun, feature: Text)
    requires RequireAnswer(run, feature) == Err(FeatureUnavailable)
    ensures var s := Entered(run.first); var t := Entered(run.last);
            && Begins(run)
            && match PathOf(s, run.first.sample)
               case AtOnce => Lives(s, run.first.sample) && !Enables(Listed(s), feature)
               case Twice => !Enables(Listed(s), feature)
               case BySeat => SeatLacks(run.seat, feature)
               case AfterRefresh =>
                 || run.refreshed == Some(FeatureUnavailable)
                 || (&& Refreshed(run)
                     && if Lives(t, run.last.sample) then !Enables(Listed(t), feature)
                        else t.failure == Some(FeatureUnavailable))
  {
    var s := Entered(run.first);
    LookAnswersIff(run.first, feature);
    LooksKeepPolicy(s, run.first.sample);
    LookIsUsableIff(s, run.first.sample);
    hide StartSessionAnswer, CheckedSnapshot, Synced, Lives, Listed, OfflineAuthorized, SeatLacks;
    if OfflineAuthorized(s) {
    } else if s.sessionRequired {
      if Lives(s, run.first.sample) {
        SecondLookFinds(run.first, run.second);
        LookAnswersIff(Again(run.first, run.second), feature);
      } else if SeatPathAnswer(run, LookAnswer(run.first).value, feature) == Err(FeatureUnavailable) {
        SeatLacksFeature(run.seat, feature);
      }
    } else {
      LookDeniesIff(s, run.first.sample);
      LookAnswersIff(run.last, feature);
      LooksKeepPolicy(Entered(run.last), run.last.sample);
    }
  }

  /** An authorised file that is not live is refused as expired exactly when its clock can be trusted; without a file,
      a client with nothing to refresh learns why. */
  lemma RefusedAtOnceMeans(run: RequireRun, feature: Text)
    requires Begins(run) && PathOf(Entered(run.first), run.first.sample) == AtOnce
    requires !Lives(Entered(run.first), run.first.sample)
    ensures var s, sample := Entered(run.first), run.first.sample;
            RequireAnswer(run, feature) == Err(
              if OfflineAuthorized(s) then
                if ClockTrusted(s.offline.value, sample) then FileExpired else ClockUncertain
              else if s.unsupported then VersionUnsupported
              else if s.transient then TransientError
              else NotActivated)
  {
    var s := Entered(run.first);
    LooksKeepPolicy(s, run.first.sample);
    LookIsUsableIff(s, run.first.sample);
    if OfflineAuthorized(s) {
      DeadFileIsReported(s, run.first.sample);
      hide CheckedSnapshot, Synced, Lives, ClockTrusted, OfflineAuthorized;
    } else {
      LookDeniesIff(s, run.first.sample);
      hide CheckedSnapshot, Synced, Lives, ClockTrusted, OfflineAuthorized;
    }
  }

  ghost predicate ClockTrusted(o: OfflineRuntime, sample: Sample) {
    && o.claims.Some? && o.anchor.Some? && NowWithWall(o.anchor.value, sample).Some?
    && o.wallHighWater <= NowWithWall(o.anchor.value, sample).value.wall + DRIFT
  }

  lemma DeadFileIsReported(s: AccessState, sample: Sample)
    requires OfflineAuthorized(s) && !Lives(s, sample)
    ensures CheckedSnapshot(s, sample).1.access == if ClockTrusted(s.offline.value, sample) then Expired else Denied
  {
    hide NowWithWall;
  }

  // ----- Activation -----

  /** An outage is bridged by an authorised file, or by a grant that has not expired and allows it; never for a floating
      licence, and not after a reply that could not be verified. */
  ghost predicate Bridged(s: AccessState, verifying: bool, sample: Sample) {
    if OfflineAuthorized(s) then FileLives(s.offline.value, sample)
    else
      && !s.sessionRequired && !verifying && s.claims.Some? && s.claims.value.offlineAllowed
      && s.anchor.Some? && Now(s.anchor.value, sample).Some?
      && Now(s.anchor.value, sample).value < s.claims.value.expiresAt
  }

  lemma LockedShowsTheSame(s: AccessState, sample: Sample)
    ensures SnapshotLocked(s, sample).1 == CheckedSnapshot(s, sample).1
  {
    hide NowWithWall, SessionSnapshot, OfflineSnapshot;
  }

  lemma OutageIsBridgedIff(s: AccessState, verifying: bool, sample: Sample)
    ensures SnapshotLocked(AfterOutage(s, verifying), sample).1.access == Offline <==> Bridged(s, verifying, sample)
  {
    hide NowWithWall;
  }

  /** The state a reply that shows something leaves to be shown. */
  function Told(s: AccessState, purpose: Fence.Purpose, reply: Reply): AccessState
    requires reply.Good? || reply.Unavailable?
  {
    if reply.Good? then Installed(s, reply.verified, if purpose.Validation? then Some(purpose.previous) else None)
    else AfterOutage(s, reply.verifying)
  }

  ghost predicate Accepts(generation: nat, found: Found, reply: Reply) {
    var s := Entered(found);
    && Enters(found) && s.generation == generation && !found.cancelled
    && (|| (reply.Good? && TakesSave(found.store, s.storageVersion, found.fault))
        || (reply.Unavailable? && Bridged(s, reply.verifying, found.sample)))
  }

  lemma ConcludesIff(store: Store, s: AccessState, purpose: Fence.Purpose, reply: Reply, fault: Fault, again: Fault,
      sample: Sample)
    ensures var r := Concluded(store, s, purpose, reply, fault, again, sample);
            && (r.Ok? <==>
                  || (reply.Good? && TakesSave(store, s.storageVersion, fault))
                  || (reply.Unavailable? && Bridged(s, reply.verifying, sample)))
            && (r.Ok? ==> r.value == SnapshotLocked(Told(s, purpose, reply), sample).1)
  {
    if reply.Good? {
      SaveIsFenced(store, s.storageVersion, reply.verified.saved, fault);
      hide SnapshotLocked, Installed, SaveAt, TakesSave, Bridged;
    } else if reply.Unavailable? {
      OutageIsBridgedIff(s, reply.verifying, sample);
      hide SnapshotLocked, AfterOutage, Bridged;
    } else {
      hide SnapshotLocked, SaveAt, InvalidateStore, ClearAccess, AfterUnsupported;
    }
  }

  /** A reply is answered with a snapshot exactly when it is good and saved, or an outage is bridged; the snapshot
      reports the authority that is then held. */
  lemma AcceptAnswersIff(generation: nat, purpose: Fence.Purpose, found: Found, reply: Reply, again: Fault,
      feature: Text)
    ensures var r := AcceptAnswer(generation, purpose, found, reply, again);
            && (r.Ok? <==> Accepts(generation, found, reply))
            && (r.Ok? ==>
                  var t := Told(Entered(found), purpose, reply);
                  && (r.value.HasFeature(feature) <==> Entitles(t, found.sample, feature))
                  && (r.value.access == Online || r.value.access == Offline <==> Lives(t, found.sample))
                  && (Lives(t, found.sample) ==> r.value == Report(t, found.sample)))
  {
    ConcludesIff(found.store, Entered(found), purpose, reply, found.fault, again, found.sample);
    if reply.Good? || reply.Unavailable? {
      var t := Told(Entered(found), purpose, reply);
      LockedShowsTheSame(t, found.sample);
      LookIsUsableIff(t, found.sample);
      ReportShowsListed(t, found.sample);
    }
    hide CheckedSnapshot, SnapshotLocked, Lives, Listed, Report, Told, Bridged, Entered, TakesSave, Concluded;
  }

  /** An activation with a key comes back with a usable snapshot of the feature. */
  ghost predicate ActivationGives(run: ActivateRun, feature: Text) {
    var g := Entered(run.look).generation;
    && Enters(run.look) && Enters(run.gate) && !run.gate.cancelled && Entered(run.gate).generation == g
    && Enters(run.begin) && Entered(run.begin).generation == g && TakesInvalidation(run.begin.store, run.begin.fault)
    && !run.startFails && Enters(run.checked) && Entered(run.checked).generation == g + 1
    && Accepts(g + 1, run.accepted, run.reply)
    && var t := run.after.state;
    if t.sessionRequired && !t.sessionDisabled
    then StartGives(t.generation, false, run.seat, run.trip, run.end, feature)
    else Entitles(Told(Entered(run.accepted), Fence.Activation, run.reply), run.accepted.sample, feature)
  }

  lemma ActivationGivesIff(run: ActivateRun, feature: Text)
    ensures ActivateAnswer(run).Ok? && ActivateAnswer(run).value.HasFeature(feature) <==> ActivationGives(run, feature)
  {
    var g := Entered(run.look).generation;
    AcceptAnswersIff(g + 1, Fence.Activation, run.accepted, run.reply, run.again, feature);
    StartGivesIff(run.after.state.generation, false, run.seat, run.trip, run.end, feature);
    InvalidationAdvances(run.begin.store, run.begin.fault);
    hide AcceptAnswer, Accepts, SerializedAnswer, StartGives, Entitles, Told, Synced, SaveAt;
  }

  /** EnsureAccess asks for a key only where NotActivatedMeans allows it, and succeeds exactly as RequireAccess or the
      activation does. */
  lemma AccessIsEnsuredIff(run: RequireRun, feature: Text, prompt: Option<Result<Text, Failure>>,
      activation: ActivateRun, cancelled: bool)
    ensures EnsureAnswer(run, feature, prompt, activation, cancelled).Ok? <==>
              if Asks(run, feature, prompt) then
                prompt.value.Ok? && prompt.value.value != [] && !cancelled && ActivationGives(activation, feature)
              else RequireGives(run, feature)
  {
    AccessIsGivenIff(run, feature);
    ActivationGivesIff(activation, feature);
    if ActivateAnswer(activation).Ok? && ActivateAnswer(activation).value.HasFeature(feature) {
      ActivatedIsUsable(activation, feature);
    }
    hide RequireAnswer, ActivateAnswer, RequireGives, ActivationGives;
  }

  lemma AcceptedIsUsable(generation: nat, found: Found, reply: Reply, again: Fault, feature: Text)
    ensures var r := AcceptAnswer(generation, Fence.Activation, found, reply, again);
            r.Ok? && r.value.HasFeature(feature) ==> r.value.access == Online || r.value.access == Offline
  {
    AcceptAnswersIff(generation, Fence.Activation, found, reply, again, feature);
    hide AcceptAnswer, Accepts, Told, Lives, Report, Listed;
  }

  lemma SerializedIsUsable(generation: nat, explicit: bool, first: Found, trip: Trip, last: Found, feature: Text)
    ensures var r := SerializedAnswer(generation, explicit, first, trip, last);
            r.Ok? && r.value.HasFeature(feature) ==> r.value.access == Online || r.value.access == Offline
  {
    var r := SerializedAnswer(generation, explicit, first, trip, last);
    if r.Ok? && r.value.HasFeature(feature) {
      SerializedIsBacked(generation, explicit, first, trip, last, feature);
    }
    hide SerializedAnswer, SeatGrants;
  }

  lemma ActivatedIsUsable(run: ActivateRun, feature: Text)
    requires ActivateAnswer(run).Ok? && ActivateAnswer(run).value.HasFeature(feature)
    ensures ActivateAnswer(run).value.access == Online || ActivateAnswer(run).value.access == Offline
  {
    AcceptedIsUsable(Entered(run.look).generation + 1, run.accepted, run.reply, run.again, feature);
    SerializedIsUsable(run.after.state.generation, false, run.seat, run.trip, run.end, feature);
    hide AcceptAnswer, SerializedAnswer, Entered, EnterFailure, LockFailure;
  }
}
