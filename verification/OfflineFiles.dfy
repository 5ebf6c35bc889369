/** Signed offline files of an installed client (sdk/go/offline.go, sdk/go/installed.go): when one is accepted, how its
    clock is kept, and the object that imports, restores and checkpoints it. Signatures are abstract: files says what
    each correctly signed token claims. */
module OfflineFiles {
  import opened Common
  import opened Text
  import opened Clock
  import opened Access
  import opened InstalledRecord
  import opened InstalledStorage

  const MAX_LIFETIME := 366 * 86400

  type Files = map<Text, OfflineClaims>

  /** The window, sequence and binding checks of verifyOfflineFile. */
  function Verify(files: Files, token: Text, installationID: Text, now: int, minimum: int): Option<OfflineClaims> {
    if token !in files then None
    else
      var c := files[token];
      if c.installationID == installationID && minimum <= c.sequence && 1 <= c.sequence <= MAX_SEQUENCE
         && 0 <= c.issuedAt <= LAST_SECOND && c.issuedAt < c.expiresAt <= LAST_SECOND
             && c.expiresAt - c.issuedAt <= MAX_LIFETIME
         && c.issuedAt <= now + DRIFT && now < c.expiresAt
      then Some(c) else None
  }

  /** A verified file is for this installation, live, and has at most 366 days and 30 seconds left. */
  lemma VerifiedFileIsLive(files: Files, token: Text, installationID: Text, now: int, minimum: int)
    requires Verify(files, token, installationID, now, minimum).Some?
    ensures var c := Verify(files, token, installationID, now, minimum).value;
            && c.installationID == installationID && c.sequence >= minimum
            && now < c.expiresAt <= now + DRIFT + MAX_LIFETIME && c.expiresAt <= LAST_SECOND
  {}

  predicate Matches(c: OfflineClaims, o: OfflineRecord) {
    c.sequence == o.sequence && c.issuanceID == o.issuanceID && c.contentDigest == o.contentDigest
  }

  /** restoreInstalled's offline part; the clock of the file starts at or past the saved time mark. */
  function Restore(r: Record, files: Files, keysGiven: bool, s: Sample): Result<Option<OfflineRuntime>, RecordFailure> {
    if r.offline.None? then Ok(None)
    else
      var stored := r.offline.value;
      if stored.jws.None? then Ok(Some(OfflineRuntime(None, None, false, false, stored.wallHighWater, stored)))
      else if !keysGiven then Err(BadInput)
      else if CaptureStart(s).None? then Err(BadClock)
      else
        var start := CaptureStart(s).value;
        var claims := Verify(files, stored.jws.value, r.installation.id, stored.verifiedAt, stored.sequence);
        if claims.None? || !Matches(claims.value, stored) || stored.verifiedAt < claims.value.issuedAt - DRIFT
           || stored.verifiedAt >= claims.value.expiresAt then Err(StorageFailed)
        else
          Ok(Some(OfflineRuntime(claims, Some(TimeAnchor(Max(start.wall, stored.timeHighWater), start)),
            start.wall + DRIFT < stored.wallHighWater || stored.timeHighWater < stored.verifiedAt, true,
                stored.wallHighWater, stored)))
  }

  /** What a checkpoint would save, or None while the clocks cannot be trusted. */
  function PlanCheckpoint(o: OfflineRuntime, s: Sample): Option<OfflineRecord>
    requires o.anchor.Some?
  {
    match NowWithWall(o.anchor.value, s)
    case None => None
    case Some(r) =>
      if r.wall < o.wallHighWater - DRIFT || r.wall < 0 || r.now < o.saved.timeHighWater then None
      else Some(o.saved.(timeHighWater := Max(o.saved.timeHighWater, r.now),
          wallHighWater := Max(o.saved.wallHighWater, r.wall)))
  }

  datatype Plan = Plan(saved: OfflineRecord, claims: OfflineClaims, anchor: TimeAnchor)

  function HighTime(previous: Option<OfflineRecord>): int { if previous.Some? then previous.value.timeHighWater else 0 }

  function HighWall(previous: Option<OfflineRecord>): int { if previous.Some? then previous.value.wallHighWater else 0 }

  function Minimum(previous: Option<OfflineRecord>): int { if previous.Some? then previous.value.sequence else 1 }

  /** The running file's own clock, if there is one, must agree with the saved marks before another file is taken. */
  function AnchorAllows(runtime: Option<OfflineRuntime>, previous: Option<OfflineRecord>,
      s: Sample): (r: Result<Option<int>, RecordFailure>) {
    if runtime.None? || runtime.value.anchor.None? then Ok(None)
    else
      match NowWithWall(runtime.value.anchor.value, s)
      case None => Err(BadClock)
      case Some(r) => if r.wall + DRIFT < HighWall(previous) || r.now < HighTime(previous) then Err(BadClock)
          else Ok(Some(r.now))
  }

  /** The decision of importOfflineFileWithGeneration, up to saving. */
  function PlanImport(r: Record, runtime: Option<OfflineRuntime>, files: Files, token: Text, begun: Sample,
      again: Sample): Result<Plan, RecordFailure> {
    var previous := r.offline;
    if CaptureStart(begun).None? then Err(BadClock)
    else
      var start := CaptureStart(begun).value;
      if start.wall + DRIFT < HighWall(previous) then Err(BadClock)
      else
        match AnchorAllows(runtime, previous, again)
        case Err(failure) => Err(failure)
        case Ok(anchored) =>
          var base := Max(start.wall, HighTime(previous));
          var now := if anchored.Some? then Max(base, anchored.value) else base;
          match Verify(files, token, r.installation.id, now, Minimum(previous))
          case None => Err(BadInput)
          case Some(claims) =>
            if previous.Some? && claims.sequence == previous.value.sequence && !Matches(claims, previous.value)
                then Err(OfflineSequence)
            else
              var trusted := Max(now, claims.issuedAt);
              Ok(Plan(OfflineRecord(Some(token), claims.sequence, claims.issuanceID, claims.contentDigest, now, trusted,
                  Max(HighWall(previous), start.wall)),
                   claims, TimeAnchor(trusted, start)))
  }

  /** After saving: the new clock must already be usable. */
  function Usable(plan: Plan, s: Sample): Option<Reading> {
    match NowWithWall(plan.anchor, s)
    case None => None
    case Some(r) => if r.wall + DRIFT < plan.saved.wallHighWater || r.now < plan.saved.timeHighWater then None
        else Some(r)
  }

  function RuntimeFor(plan: Plan, wall: int): OfflineRuntime {
    OfflineRuntime(Some(plan.claims), Some(plan.anchor), false, true, Max(plan.saved.wallHighWater, wall), plan.saved)
  }

  /** What clearing access leaves of the running file. */
  function Unauthorised(runtime: Option<OfflineRuntime>): Option<OfflineRuntime> {
    if runtime.None? then None else Some(runtime.value.(authorized := false))
  }

  function WithDoubt(runtime: Option<OfflineRuntime>, doubt: bool): Option<OfflineRuntime> {
    if runtime.None? then None else Some(runtime.value.(uncertain := doubt))
  }

  predicate SameButDoubt(a: Option<OfflineRuntime>, b: Option<OfflineRuntime>) {
    if a.None? then b.None? else b.Some? && b.value == a.value.(uncertain := b.value.uncertain)
  }

  /** What is saved is never behind what was saved, and names exactly the file that was verified. */
  lemma PlansNeverRewind(r: Record, runtime: Option<OfflineRuntime>, files: Files, token: Text, begun: Sample,
      again: Sample)
    requires PlanImport(r, runtime, files, token, begun, again).Ok?
    ensures var plan := PlanImport(r, runtime, files, token, begun, again).value;
            && Matches(plan.claims, plan.saved) && files[token] == plan.claims
                && plan.claims.installationID == r.installation.id
            && plan.saved.timeHighWater == plan.anchor.server >= plan.saved.verifiedAt
            && plan.saved.verifiedAt < plan.claims.expiresAt
            && (r.offline.Some? ==>
                  && plan.saved.sequence >= r.offline.value.sequence
                      && plan.saved.timeHighWater >= r.offline.value.timeHighWater
                  && plan.saved.wallHighWater >= r.offline.value.wallHighWater
                  && plan.claims.expiresAt > r.offline.value.timeHighWater)
            && SaveOfflineEdit(r, r.generation, plan.saved) ==
                 if r.generation == MAX_INT64 then Decline(StorageFailed)
                 else Put(r.(generation := r.generation + 1, credential := None, access := None, pending := None,
                     offline := Some(plan.saved)))
  {
    hide NowWithWall;
  }

  // ----- Which files must be taken -----

  /** The file is later than the one saved last, or is the very issue saved last. */
  predicate Succeeds(c: OfflineClaims, previous: Option<OfflineRecord>) {
    previous.Some? ==>
      || c.sequence > previous.value.sequence
      || (c.sequence == previous.value.sequence && c.issuanceID == previous.value.issuanceID
          && c.contentDigest == previous.value.contentDigest)
  }

  /** The file is bound to this installation and well-formed: a sequence from 1 to 9007199254740991, times in the years
      1970 to 9999, and a life of at most 366 days. */
  predicate WellIssued(c: OfflineClaims, installationID: Text) {
    && c.installationID == installationID && 1 <= c.sequence <= 9007199254740991
    && 0 <= c.issuedAt < c.expiresAt <= LAST_SECOND && c.expiresAt <= c.issuedAt + 366 * 86400
  }

  /** The wall clock, and the clock of a file that runs already, work and are not behind what was saved. */
  ghost predicate ClocksAllow(runtime: Option<OfflineRuntime>, previous: Option<OfflineRecord>, begun: Sample,
      again: Sample) {
    && begun.elapsed.Some? && 0 <= begun.wall && (previous.Some? ==> previous.value.wallHighWater <= begun.wall + 30)
    && (runtime.Some? && runtime.value.anchor.Some? ==>
          var reading := NowWithWall(runtime.value.anchor.value, again);
          && reading.Some?
          && (if previous.Some? then
                && previous.value.wallHighWater <= reading.value.wall + 30
                && previous.value.timeHighWater <= reading.value.now
              else 0 <= reading.value.wall + 30 && 0 <= reading.value.now))
  }

  /** The latest of the wall clock, the saved time mark and the running file's clock. */
  ghost function LatestTime(runtime: Option<OfflineRuntime>, previous: Option<OfflineRecord>, begun: Sample,
      again: Sample): int
    requires ClocksAllow(runtime, previous, begun, again)
  {
    var wall := if previous.Some? && previous.value.timeHighWater > begun.wall then previous.value.timeHighWater
                else begun.wall;
    if runtime.Some? && runtime.value.anchor.Some? && NowWithWall(runtime.value.anchor.value, again).value.now > wall
    then NowWithWall(runtime.value.anchor.value, again).value.now
    else wall
  }

  /** Every file that is due is taken: exactly those that are correctly signed, well issued for this installation,
      issued at most 30 seconds ahead, not expired, and not behind the one saved last, while the clocks can be trusted. */
  lemma FileIsTakenIff(r: Record, runtime: Option<OfflineRuntime>, files: Files, token: Text, begun: Sample,
      again: Sample)
    ensures var p := PlanImport(r, runtime, files, token, begun, again);
            if !ClocksAllow(runtime, r.offline, begun, again) then p == Err(BadClock)
            else
              var now := LatestTime(runtime, r.offline, begun, again);
              var due := token in files && WellIssued(files[token], r.installation.id)
                && files[token].issuedAt <= now + 30 && now < files[token].expiresAt;
              && (p.Ok? <==> due && Succeeds(files[token], r.offline))
              && (p.Err? ==> p.error == if due && files[token].sequence == r.offline.value.sequence then OfflineSequence
                                        else BadInput)
              && (p.Ok? ==> p.value == PlanFor(token, files[token], now, begun, r.offline))
  {
    hide NowWithWall;
  }

  /** The clocks allow it and the file is due. */
  ghost predicate Due(r: Record, runtime: Option<OfflineRuntime>, files: Files, token: Text, begun: Sample,
      again: Sample) {
    && ClocksAllow(runtime, r.offline, begun, again) && token in files
    && WellIssued(files[token], r.installation.id) && Succeeds(files[token], r.offline)
    && files[token].issuedAt <= LatestTime(runtime, r.offline, begun, again) + 30
    && LatestTime(runtime, r.offline, begun, again) < files[token].expiresAt
  }

  /** The new clock, read after saving, is at or past the saved time mark and not 30 seconds behind the saved wall mark. */
  ghost predicate Runs(plan: Plan, final: Sample) {
    var reading := NowWithWall(plan.anchor, final);
    && reading.Some? && plan.saved.wallHighWater <= reading.value.wall + 30
    && plan.saved.timeHighWater <= reading.value.now
  }

  /** An import is complete exactly if the file is due, storage answers and writes, the caller has not given up, and the
      new clock runs. */
  ghost predicate Completes(s: Held, runtime: Option<OfflineRuntime>, files: Files, token: Text, begun: Sample,
      again: Sample, final: Sample, cancelled: bool, io: IO) {
    && !s.closed && !s.poisoned && io.checks && io.fits && io.writes && s.record.generation != MAX_INT64
    && Due(s.record, runtime, files, token, begun, again) && !cancelled
    && Runs(PlanFor(token, files[token], LatestTime(runtime, s.record.offline, begun, again), begun, s.record.offline),
         final)
  }

  lemma CompletesIff(s: Held, runtime: Option<OfflineRuntime>, files: Files, token: Text, begun: Sample,
      again: Sample, final: Sample, cancelled: bool, io: IO)
    ensures var p := PlanImport(s.record, runtime, files, token, begun, again);
            Completes(s, runtime, files, token, begun, again, final, cancelled, io) <==>
              && Answers(s, io) && p.Ok?
              && Apply(s, SaveOfflineEdit(s.record, s.record.generation, p.value.saved), io).1.None?
              && !cancelled && Usable(p.value, final).Some?
  {
    FileIsTakenIff(s.record, runtime, files, token, begun, again);
    if PlanImport(s.record, runtime, files, token, begun, again).Ok? {
      PlansNeverRewind(s.record, runtime, files, token, begun, again);
    }
    hide NowWithWall, PlanImport, PlanFor, LatestTime, ClocksAllow, WellIssued, Succeeds, SaveOfflineEdit;
  }

  /** What is saved of a file taken at this time, and the clock it then runs by. */
  function PlanFor(token: Text, c: OfflineClaims, now: int, begun: Sample, previous: Option<OfflineRecord>): Plan
    requires begun.elapsed.Some?
  {
    var trusted := if c.issuedAt > now then c.issuedAt else now;
    var wall := if previous.Some? && previous.value.wallHighWater > begun.wall then previous.value.wallHighWater
                else begun.wall;
    Plan(OfflineRecord(Some(token), c.sequence, c.issuanceID, c.contentDigest, now, trusted, wall), c,
      TimeAnchor(trusted, RequestStart(begun.elapsed.value, begun.wall)))
  }

  class InstalledClient {
    const storage: InstalledStorage
    var runtime: Option<OfflineRuntime>

    constructor (storage: InstalledStorage)
      ensures this.storage == storage && runtime.None?
    {
      this.storage, runtime := storage, None;
    }

    method RestoreOffline(files: Files, keysGiven: bool, s: Sample) returns (failure: Option<RecordFailure>)
      modifies this
      ensures var restored := Restore(storage.record, files, keysGiven, s);
              if restored.Ok? then failure.None? && runtime == (if restored.value.Some? then restored.value
                  else old(runtime))
              else failure == Some(restored.error) && runtime == old(runtime)
    {
      if storage.record.offline.None? { return None; }
      var stored := storage.record.offline.value;
      var idle := OfflineRuntime(None, None, false, false, stored.wallHighWater, stored);
      if stored.jws.None? {
        runtime := Some(idle);
        return None;
      }
      if !keysGiven { return Some(BadInput); }
      var start := CaptureStart(s);
      if start.None? { return Some(BadClock); }
      var claims := Verify(files, stored.jws.value, storage.record.installation.id, stored.verifiedAt, stored.sequence);
      if claims.None? || claims.value.sequence != stored.sequence || claims.value.issuanceID != stored.issuanceID
         || claims.value.contentDigest != stored.contentDigest || stored.verifiedAt < claims.value.issuedAt - DRIFT
         || stored.verifiedAt >= claims.value.expiresAt { return Some(StorageFailed); }
      var trusted := start.value.wall;
      if stored.timeHighWater > trusted { trusted := stored.timeHighWater; }
      runtime := Some(idle.(claims := claims, anchor := Some(TimeAnchor(trusted, start.value)), authorized := true,
        uncertain := start.value.wall + DRIFT < stored.wallHighWater || stored.timeHighWater < stored.verifiedAt));
      return None;
    }

    /** Nothing to do without an authorised file; otherwise the marks move forward or the file is no longer authorised. */
    method CheckpointOffline(s: Sample, io: IO) returns (failure: Option<RecordFailure>)
      modifies this, storage
      ensures old(runtime).None? || !old(runtime).value.authorized || old(runtime).value.anchor.None? ==>
                failure.None? && runtime == old(runtime) && storage.State() == old(storage.State())
      ensures old(runtime).Some? && old(runtime).value.authorized && old(runtime).value.anchor.Some? ==>
                var o := old(runtime).value;
                match PlanCheckpoint(o, s)
                case None => failure == Some(BadClock) && runtime == Some(o.(uncertain := true))
                    && storage.State() == old(storage.State())
                case Some(saved) =>
                  && (storage.State(), failure) == Apply(old(storage.State()),
                      CheckpointOfflineEdit(old(storage.record), saved), io)
                  && runtime == Some(if failure.Some? then o.(authorized := false)
                      else o.(saved := saved, wallHighWater := saved.wallHighWater))
    {
      if runtime.None? || !runtime.value.authorized || runtime.value.anchor.None? { return None; }
      var o := runtime.value;
      var reading := NowWithWall(o.anchor.value, s);
      if reading.None? || reading.value.wall < o.wallHighWater - DRIFT || reading.value.wall < 0
          || reading.value.now < o.saved.timeHighWater {
        runtime := Some(o.(uncertain := true));
        return Some(BadClock);
      }
      var saved := o.saved;
      if reading.value.now > saved.timeHighWater { saved := saved.(timeHighWater := reading.value.now); }
      if reading.value.wall > saved.wallHighWater { saved := saved.(wallHighWater := reading.value.wall); }
      failure := storage.CheckpointOffline(saved, io);
      if failure.Some? {
        runtime := Some(o.(authorized := false));
        return;
      }
      runtime := Some(o.(saved := saved, wallHighWater := saved.wallHighWater));
    }

    /** The decision, and the doubt it leaves on the running file. */
    method DecideImport(files: Files, token: Text, begun: Sample, again: Sample, io: IO)
      returns (r: Result<Plan, RecordFailure>)
      modifies this
      ensures SameButDoubt(old(runtime), runtime)
      ensures r == if Answers(storage.State(), io)
          then PlanImport(storage.record, old(runtime), files, token, begun, again) else Err(StorageFailed)
    {
      hide Verify, NowWithWall;
      var previous := storage.OfflineState(io);
      if previous.Err? { return Err(previous.error); }
      var start := CaptureStart(begun);
      if start.None? { return Err(BadClock); }
      var minimum, highTime, highWall := 1, 0, 0;
      if previous.value.Some? {
        minimum, highTime, highWall := previous.value.value.sequence, previous.value.value.timeHighWater,
            previous.value.value.wallHighWater;
      }
      if start.value.wall + DRIFT < highWall { return Err(BadClock); }
      var now := start.value.wall;
      if now < highTime { now := highTime; }
      if runtime.Some? && runtime.value.anchor.Some? {
        var reading := NowWithWall(runtime.value.anchor.value, again);
        if reading.None? || reading.value.wall + DRIFT < highWall || reading.value.now < highTime {
          runtime := WithDoubt(runtime, true);
          return Err(BadClock);
        }
        runtime := WithDoubt(runtime, false);
        if reading.value.now > now { now := reading.value.now; }
      }
      var claims := Verify(files, token, storage.record.installation.id, now, minimum);
      if claims.None? { return Err(BadInput); }
      if previous.value.Some? && claims.value.sequence == minimum && !Matches(claims.value, previous.value.value) {
        return Err(OfflineSequence);
      }
      var trusted := now;
      if claims.value.issuedAt > trusted { trusted := claims.value.issuedAt; }
      var saved := OfflineRecord(Some(token), claims.value.sequence, claims.value.issuanceID,
          claims.value.contentDigest, now, trusted, highWall);
      if start.value.wall > saved.wallHighWater { saved := saved.(wallHighWater := start.value.wall); }
      return Ok(Plan(saved, claims.value, TimeAnchor(trusted, start.value)));
    }

    /** From the section that has synchronised: decide, save, and only then authorise. again and final are the later clock
        readings, cancelled whether the caller gave up while saving. */
    method ImportOffline(files: Files, token: Text, begun: Sample, again: Sample, final: Sample, cancelled: bool,
        io: IO, undo: IO)
      returns (r: Result<Snapshot, RecordFailure>)
      modifies this, storage
      ensures r.Ok? ==>
                var plan := PlanImport(old(storage.record), old(runtime), files, token, begun, again);
                && plan.Ok? && !cancelled && Usable(plan.value, final).Some?
                && runtime == Some(RuntimeFor(plan.value, Usable(plan.value, final).value.wall))
                && storage.State() == Apply(old(storage.State()),
                    SaveOfflineEdit(old(storage.record), old(storage.record).generation, plan.value.saved), io).0
                && storage.record.offline == Some(plan.value.saved)
                && r.value == OfflineSnapshot(runtime.value, Some(Usable(plan.value, final).value.now))
      ensures r.Ok? <==>
                Completes(old(storage.State()), old(runtime), files, token, begun, again, final, cancelled, io)
      ensures r.Err? ==>
                || runtime.None? || !runtime.value.authorized
                || (storage.State() == old(storage.State()) && SameButDoubt(old(runtime), runtime))
      ensures var p := PlanImport(old(storage.record), old(runtime), files, token, begun, again);
              var s := old(storage.State());
              if !Answers(s, io) then r == Err(StorageFailed) && storage.State() == s
              else if p.Err? then r == Err(p.error) && storage.State() == s
              else
                var (t, failure) := Apply(s, SaveOfflineEdit(s.record, s.record.generation, p.value.saved), io);
                if failure.Some? then r == Err(failure.value) && storage.State() == t
                else r.Err? ==>
                  && storage.State() == Apply(t, InvalidateEdit(t.record, true, true), undo).0
                  && r.error == if Apply(t, InvalidateEdit(t.record, true, true), undo).1.Some? then StorageFailed
                                else BadClock
    {
      CompletesIff(storage.State(), runtime, files, token, begun, again, final, cancelled, io);
      hide PlanImport, OfflineSnapshot, NowWithWall, Completes;
      var plan := DecideImport(files, token, begun, again, io);
      if plan.Err? { return Err(plan.error); }
      var saved, anchor := plan.value.saved, plan.value.anchor;
      var version := storage.SaveOffline(storage.record.generation, saved, io);
      runtime := Unauthorised(runtime);
      if version.Err? { return Err(version.error); }
      var current := NowWithWall(anchor, final);
      if cancelled || current.None? || current.value.wall + DRIFT < saved.wallHighWater
          || current.value.now < saved.timeHighWater {
        var undone := storage.Invalidate(true, true, undo);
        return Err(if undone.Err? then StorageFailed else BadClock);
      }
      runtime := Some(OfflineRuntime(Some(plan.value.claims), Some(anchor), false, true,
          Max(saved.wallHighWater, current.value.wall), saved));
      return Ok(OfflineSnapshot(runtime.value, Some(current.value.now)));
    }
  }
}
