/** What an installed client was given is there again after a restart (sdk/go/installed.go,
    sdk/go/installed_storage.go): an imported file for as long as nothing clears it, and a cached grant under the exact
    conditions on its clocks; and in between their checkpoints go through. */
module Resumption {
  import opened Common
  import opened Text
  import opened Clock
  import opened Storage
  import opened Access
  import opened InstalledRecord
  import opened RecordRuns
  import opened OfflineFiles
  import CachedGrant
  import OfflineTime

  // ----- Offline files -----

  /** The record holds this token, with what its file claims, verified when the file was live. */
  ghost predicate HoldsFile(r: Record, files: Files, token: Text) {
    && token in files && r.offline.Some? && r.offline.value.jws == Some(token)
    && var c, o := files[token], r.offline.value;
    && WellIssued(c, r.installation.id)
    && c.sequence == o.sequence && c.issuanceID == o.issuanceID && c.contentDigest == o.contentDigest
    && c.issuedAt <= o.verifiedAt + 30 && o.verifiedAt < c.expiresAt
  }

  /** What an import saves is such a record. */
  lemma ImportHoldsFile(r: Record, runtime: Option<OfflineRuntime>, files: Files, token: Text, begun: Sample,
      again: Sample)
    requires Due(r, runtime, files, token, begun, again) && r.generation != MAX_INT64
    ensures var now := LatestTime(runtime, r.offline, begun, again);
            var edit := SaveOfflineEdit(r, r.generation, PlanFor(token, files[token], now, begun, r.offline).saved);
            edit.Put? && HoldsFile(Stamped(edit.record), files, token)
  {
    FileIsTakenIff(r, runtime, files, token, begun, again);
    PlansNeverRewind(r, runtime, files, token, begun, again);
    hide PlanImport, LatestTime, ClocksAllow, Succeeds;
  }

  /** These transitions keep the file on the record: everything but another import, an activation, its end, a sign-off, a
      denial and another machine. */
  predicate Spares(op: Op, r: Record) {
    || op.DropCache? || op.Checkpoint? || op.CheckpointOffline?
    || (op.Rebind? && op.fingerprint == r.installation.fingerprint && op.provider == r.installation.provider)
  }

  lemma SparingKeepsFile(r: Record, op: Op, files: Files, token: Text)
    requires HoldsFile(r, files, token) && Spares(op, r) && EditFor(r, op).Put?
    ensures var t := Stamped(EditFor(r, op).record); HoldsFile(t, files, token) && t.installation == r.installation
  {
    hide WellIssued;
  }

  /** Every transition of the run spares the file on the record it meets. */
  ghost predicate AllSpare(d: Device, events: seq<Event>)
    decreases |events|
  {
    events != [] ==>
      && (events[0].Do? && d.live.Some? ==> Spares(events[0].op, d.live.value.record))
      && AllSpare(Step(d, events[0]), events[1..])
  }

  /** Over every run of such transitions, with failed writes, crashes and restarts, the medium keeps the file unless a
      replacement broke it. */
  lemma {:induction false} FileStays(d: Device, events: seq<Event>, files: Files, token: Text)
    requires Inv(d) && AllSpare(d, events) && (d.medium.Holds? ==> HoldsFile(d.medium.record, files, token))
    ensures var n := Run(d, events); n.medium.Holds? ==> HoldsFile(n.medium.record, files, token)
    decreases |events|
  {
    if events != [] {
      var e := events[0];
      StepKeeps(d, e);
      if e.Do? && d.live.Some? {
        EditedLands(d, e.op, e.io, e.fate);
        if d.medium == Holds(d.live.value.record) && EditFor(d.live.value.record, e.op).Put? {
          SparingKeepsFile(d.live.value.record, e.op, files, token);
        }
      }
      assert Step(d, e).medium.Holds? ==> HoldsFile(Step(d, e).medium.record, files, token) by {
        hide HoldsFile, Inv, EditFor, Edited, Spares;
      }
      FileStays(Step(d, e), events[1..], files, token);
      hide HoldsFile, Inv, Step;
    }
  }

  /** And a record that holds a file restores it whenever the keys are given and the elapsed clock works: authorised, with
      its claims, at the later of wall clock and time mark, and in doubt only if the wall clock is more than 30 seconds
      behind its mark. */
  lemma HeldFileIsRestored(r: Record, files: Files, token: Text, s: Sample)
    requires HoldsFile(r, files, token) && s.elapsed.Some? && s.wall >= 0
    ensures var o := r.offline.value;
            var start := RequestStart(s.elapsed.value, s.wall);
            var now := if o.timeHighWater > s.wall then o.timeHighWater else s.wall;
            Restore(r, files, true, s) ==
              Ok(Some(OfflineRuntime(Some(files[token]), Some(TimeAnchor(now, start)),
                s.wall + 30 < o.wallHighWater || o.timeHighWater < o.verifiedAt, true, o.wallHighWater, o)))
  {}

  /** A token is restored exactly if the record holds its file; otherwise opening fails. */
  lemma RestoresIff(r: Record, files: Files, keysGiven: bool, s: Sample)
    requires r.offline.Some? && r.offline.value.jws.Some?
    ensures Restore(r, files, keysGiven, s).Ok? <==>
              keysGiven && s.elapsed.Some? && s.wall >= 0 && HoldsFile(r, files, r.offline.value.jws.value)
  {}

  /** A checkpoint of a running file goes through exactly while its clock can be read and is not behind its marks; it then
      moves both marks to what was read, unless they are ahead. */
  lemma FileCheckpointsIff(o: OfflineRuntime, s: Sample)
    requires o.anchor.Some?
    ensures var reading, p := NowWithWall(o.anchor.value, s), PlanCheckpoint(o, s);
            && (p.Some? <==>
                  && reading.Some? && reading.value.wall >= 0 && reading.value.wall + 30 >= o.wallHighWater
                  && reading.value.now >= o.saved.timeHighWater)
            && (p.Some? ==> p.value == o.saved.(timeHighWater := reading.value.now,
                  wallHighWater := if reading.value.wall > o.saved.wallHighWater then reading.value.wall
                                   else o.saved.wallHighWater))
  {
    hide NowWithWall;
  }

  /** What a checkpoint plans is accepted by the record the running file was saved in, and leaves it holding the file. */
  lemma CheckpointIsAccepted(r: Record, o: OfflineRuntime, files: Files, token: Text, s: Sample)
    requires HoldsFile(r, files, token) && r.offline == Some(o.saved) && o.anchor.Some? && PlanCheckpoint(o, s).Some?
    ensures var saved := PlanCheckpoint(o, s).value;
            && CheckpointOfflineEdit(r, saved) == Put(r.(offline := Some(saved)))
            && HoldsFile(r.(offline := Some(saved)), files, token)
  {
    FileCheckpointsIff(o, s);
    hide NowWithWall, PlanCheckpoint, WellIssued;
  }

  /** A restored file is reported at once if it has not expired and the wall clock is not behind its mark. */
  lemma RestoredFileIsReported(r: Record, files: Files, token: Text, s: Sample)
    requires HoldsFile(r, files, token) && s.elapsed.Some? && 0 <= s.wall <= MAX_INT64
    requires r.offline.value.timeHighWater <= MAX_INT64
    ensures var o := Restore(r, files, true, s).value.value;
            OfflineSnapshot(o, OfflineNow(o, s)).access == Offline <==>
              && s.wall < files[token].expiresAt && r.offline.value.timeHighWater < files[token].expiresAt
              && r.offline.value.wallHighWater <= s.wall + 30
  {
    HeldFileIsRestored(r, files, token, s);
    hide Restore;
  }

  /** In whole lives: a process that has started has an authorised file exactly if the record it bound holds one. */
  lemma StartAuthorisesIff(w: OfflineTime.Life, e: OfflineTime.Moment)
    requires e.Start? && w.d.live.None? && e.newID !in w.used && e.sample.elapsed.Some?
    ensures var booted := Step(w.d, Boot);
            var v := OfflineTime.Step(w, e);
            var op := Rebind(e.fingerprint, e.provider, e.newID);
            v.d.live.Some? && OfflineTime.Authorised(v.runtime) <==>
              && booted.live.Some? && !EditFails(booted, op, e.io)
              && var r := Edited(booted, op, e.io, e.fate).live.value.record;
              && r.offline.Some? && r.offline.value.jws.Some? && e.keysGiven && e.sample.wall >= 0
              && HoldsFile(r, w.files, r.offline.value.jws.value)
  {
    var booted := Step(w.d, Boot);
    if booted.live.Some? {
      var bound := Edited(booted, Rebind(e.fingerprint, e.provider, e.newID), e.io, e.fate);
      var r := bound.live.value.record;
      if r.offline.Some? && r.offline.value.jws.Some? {
        RestoresIff(r, w.files, e.keysGiven, e.sample);
        if Restore(r, w.files, e.keysGiven, e.sample).Ok? {
          HeldFileIsRestored(r, w.files, r.offline.value.jws.value, e.sample);
        }
      }
    }
    hide Edited, EditFails, HoldsFile, OfflineTime.Marked;
  }

  /** And an import in time authorises its file exactly if it is complete. */
  lemma ImportAuthorisesIff(w: OfflineTime.Life, e: OfflineTime.Moment)
    requires e.Import? && w.d.live.Some? && OnTime(w.last, e.begun) && OnTime(Passed(w.last, e.begun), e.again)
    requires OnTime(Passed(Passed(w.last, e.begun), e.again), e.final)
    ensures var v, held := OfflineTime.Step(w, e), w.d.live.value;
            var complete := Completes(held, w.runtime, w.files, e.token, e.begun, e.again, e.final, e.cancelled, e.io);
            && (complete ==>
                  && OfflineTime.Authorised(v.runtime) && v.runtime.value.claims == Some(w.files[e.token])
                  && v.d.medium.Holds? && HoldsFile(v.d.medium.record, w.files, e.token))
            && (!complete ==> v.runtime == w.runtime || !OfflineTime.Authorised(v.runtime))
  {
    var held := w.d.live.value;
    CompletesIff(held, w.runtime, w.files, e.token, e.begun, e.again, e.final, e.cancelled, e.io);
    if PlanImport(held.record, w.runtime, w.files, e.token, e.begun, e.again).Ok? {
      FileIsTakenIff(held.record, w.runtime, w.files, e.token, e.begun, e.again);
      if held.record.generation != MAX_INT64 {
        ImportHoldsFile(held.record, w.runtime, w.files, e.token, e.begun, e.again);
      }
    }
    hide PlanImport, Usable, HoldsFile, OfflineTime.Marked, LatestTime, ClocksAllow, WellIssued, Succeeds, PlanFor;
    hide Runs;
  }

  // ----- Cached grants -----

  /** A checkpoint by the clock the grant was received with goes through exactly if neither clock is behind its mark or
      past the year 9999 and the wall clock, read again, is within 30 seconds of the server's progress. One reading of
      both clocks always is. */
  lemma GrantCheckpointsIff(r: Record, anchor: TimeAnchor, s: Sample, wall: int)
    requires r.access.Some? && r.access.value.receivedServer == anchor.server
    requires r.access.value.receivedWall == anchor.start.wall && NowWithWall(anchor, s).Some?
    ensures var a, now := r.access.value, NowWithWall(anchor, s).value.now;
            CheckpointEdit(r, now, wall) ==
              if a.serverHighWater <= now <= LAST_SECOND && a.wallHighWater <= wall <= LAST_SECOND
                 && InStep(anchor, now, wall)
              then Put(r.(access := Some(a.(serverHighWater := now, wallHighWater := wall))))
              else Decline(BadClock)
    ensures InStep(anchor, NowWithWall(anchor, s).value.now, NowWithWall(anchor, s).value.wall)
  {
    ReadingBounds(anchor, s);
    hide NowWithWall;
  }

  /** The wall clock has made the server clock's progress since the anchor, give or take 30 seconds. */
  predicate InStep(anchor: TimeAnchor, now: int, wall: int) {
    -30 <= (now - anchor.server) - (wall - anchor.start.wall) <= 30
  }

  /** A grant that was verified when its reply arrived passes the same checks at the server's own time of that reply, as a
      restart makes them, exactly if it was not issued more than 30 seconds after that time. */
  lemma GrantIsVerifiedAgainIff(grants: CachedGrant.Grants, jws: Text, licence: Text, server: int, now: int,
      expiry: int, licenceExpiresAt: Option<int>)
    requires MIN_INT64 + 30 <= server <= now <= MAX_INT64 - 30
    requires CachedGrant.Verify(grants, jws, licence, now, expiry, licenceExpiresAt).Some?
    ensures CachedGrant.Verify(grants, jws, grants[jws].subject, server, expiry, licenceExpiresAt) ==
              if grants[jws].issuedAt <= server + 30 then Some(grants[jws]) else None
  {}

  /** The time a restart at this wall clock estimates. */
  function EstimateAt(anchor: TimeAnchor, now: int, wall: int): int {
    var progressed := anchor.server + (wall - anchor.start.wall);
    if progressed > now then progressed else now
  }

  /** A committed grant is restored after a restart exactly if it was not issued more than 30 seconds after the reply's
      own time, the clocks had kept step when it was saved, the wall clock has not gone back behind its mark since, and
      the time then estimated is within the grant and the credential; its clock then starts at that time. */
  lemma CommittedGrantComesBackIff(r: Record, grants: CachedGrant.Grants, jws: Text, licence: Text, checked: int,
      c: StoredCredential, anchor: TimeAnchor, saving: Sample, wall: int, licenceExpiresAt: Option<int>, s: Sample)
    requires MIN_INT64 + 30 <= anchor.server <= checked <= MAX_INT64 - 30 && NowWithWall(anchor, saving).Some?
    requires CachedGrant.Verify(grants, jws, licence, checked, c.credentialExpiresAt, licenceExpiresAt).Some?
    requires c.licenceID == grants[jws].subject
    ensures var now, claims := NowWithWall(anchor, saving).value.now, grants[jws];
            var access := CachedAccess(jws, licenceExpiresAt, anchor.server, anchor.start.wall, now, wall);
            var edit := CommitEdit(r, r.generation, c, access);
            var estimated := EstimateAt(anchor, now, s.wall);
            var usable :=
              && claims.issuedAt <= anchor.server + 30 && s.elapsed.Some? && 0 <= s.wall
              && anchor.start.wall <= wall <= s.wall && InStep(anchor, now, wall)
              && anchor.server + (s.wall - anchor.start.wall) <= LAST_SECOND
              && claims.notBefore <= estimated < claims.expiresAt
              && (c.credentialExpiresAt != 0 ==> estimated < c.credentialExpiresAt);
            && edit.Put?
            && CachedGrant.Restore(Stamped(edit.record), c.fingerprint, c.fingerprintProvider, grants, s) ==
                 if usable then
                   CachedGrant.Use(claims, TimeAnchor(estimated, RequestStart(s.elapsed.value, s.wall)))
                 else CachedGrant.Drop
  {
    ReadingBounds(anchor, saving);
    GrantIsVerifiedAgainIff(grants, jws, licence, anchor.server, checked, c.credentialExpiresAt, licenceExpiresAt);
    hide NowWithWall, CachedGrant.Verify, CachedGrant.InWindow;
  }

  /** So a grant can be good enough to be used online and yet be forgotten by a restart: one issued 31 seconds after the
      time its own reply named, when the reply took a second to arrive. */
  lemma LateGrantIsForgotten(jws: Text, server: int)
    requires 0 <= server <= LAST_SECOND
    ensures var c := GrantClaims([65], server + 31, server + 31, server + 331, server + 91, false, None, map[]);
            && CachedGrant.Verify(map[jws := c], jws, [], server + 1, 0, None) == Some(c)
            && CachedGrant.Verify(map[jws := c], jws, [65], server, 0, None).None?
  {}
}
