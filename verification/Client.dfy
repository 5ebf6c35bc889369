/** The client object of sdk/go/access.go and sdk/go/sessions.go. Its sections change the fields step by step; each
    answers what module Decisions says, and leaves the state that the interleaved machine of module Fence leaves. */
module Client {
  import opened Common
  import opened Text
  import opened Storage
  import opened Clock
  import opened Access
  import opened Decisions
  import opened Owed
  import opened Replies
  import Fence

  lemma GoodIsWhole(store: Store, s: AccessState, purpose: Fence.Purpose, reply: Reply, fault: Fault, sample: Sample)
    requires reply.Good?
    ensures var w := Around(store, s.generation, purpose);
            !Fence.DoGood(w, Holding(s), 0, reply.verified, fault, sample).party.stage.Resaving?
  {}

  /** How the first section of a seat request ends. */
  predicate Begun(r: Result<Option<Snapshot>, Failure>, id: Text, s: AccessState, start: SeatStart) {
    s == start.state &&
    match start
    case Answer(_, snapshot) => r == Ok(Some(snapshot))
    case Refuse(_, failure) => r == Err(failure)
    case Ask(_, asked) => r == Ok(None) && id == asked
  }

  class Client {
    var state: AccessState
    var store: Store   // what the storage adapter holds, shared with other clients
    var closed: bool

    constructor (store: Store)
      ensures state.storageVersion == store.version && state.credential == store.credential
      ensures state.claims.None? && state.session.None? && state.offline.None? && !closed && this.store == store
    {
      this.store, closed := store, false;
      state := AccessState(0, store.version, false, store.credential, None, None, false, None,
        false, false, false, None, None, None, None, false);
    }

    method Relock(at: Found)
      modifies this
      ensures state == at.state && store == at.store && closed == at.closed
    {
      state, store, closed := at.state, at.store, at.closed;
    }

    method SyncStorageLocked(fault: Fault) returns (failure: Option<Failure>)
      modifies this
      ensures closed == old(closed)
      ensures closed ==> failure == Some(ClientClosed) && state == old(state) && store == old(store)
      ensures !closed ==>
                var (s, version) := ReadVersion(old(store), fault);
                store == s && state == Synced(old(state), version).0 && failure == if version.None?
                    then Some(StorageError) else None
      ensures failure.None? ==> state.storageVersion == store.version
    {
      if closed { return Some(ClientClosed); }
      var version: Option<nat>;
      store, version := ReadVersion(store, fault).0, ReadVersion(store, fault).1;
      if version.None? {
        state := ClearState(state);
        return Some(StorageError);
      }
      if version.value != state.storageVersion {
        state := ClearState(state).(storageVersion := version.value);
      }
      return None;
    }

    /** A look in the middle of a section, at the fields as they are. */
    method CheckedSnapshotLocked(fault: Fault, sample: Sample) returns (r: Answered)
      modifies this
      ensures var found := Found(old(state), old(store), old(closed), fault, sample, false);
              r == LookAnswer(found) && state == LookState(found) && store == EnteredStore(found)
                  && closed == old(closed)
    {
      hide CheckedSnapshot;
      var failure := SyncStorageLocked(fault);
      if failure.Some? { return Err(failure.value); }
      var (s, snapshot) := CheckedSnapshot(state, sample);
      state := s;
      return Ok(snapshot);
    }

    /** Take the lock, synchronise, and go on only in the expected generation. */
    method Enter(generation: nat, found: Found) returns (failure: Option<Failure>)
      modifies this
      ensures failure == EnterFailure(generation, found)
      ensures state == Entered(found) && store == EnteredStore(found) && closed == found.closed
    {
      Relock(found);
      failure := SyncStorageLocked(found.fault);
      if failure.None? && state.generation != generation { return Some(StaleResponse); }
    }

    /** The first section of a seat request. Ok(None) sends a request for the returned id. */
    method BeginSeat(generation: nat, explicit: bool, found: Found, trip: Trip)
      returns (r: Result<Option<Snapshot>, Failure>, id: Text)
      modifies this
      ensures EnterFailure(generation, found).None? ==> Begun(r, id, state, Started(explicit, found, trip))
      ensures EnterFailure(generation, found).Some? ==>
                r == Err(EnterFailure(generation, found).value) && state == Entered(found)
    {
      id := [];
      var failure := Enter(generation, found);
      if failure.Some? { return Err(failure.value), id; }
      r, id := OpenSeat(explicit, found.sample, trip);
    }

    method OpenSeat(explicit: bool, sample: Sample, trip: Trip) returns (r: Result<Option<Snapshot>, Failure>, id: Text)
      modifies this
      ensures store == old(store) && closed == old(closed)
      ensures Begun(r, id, state, StartSeat(old(state), explicit, trip.newID, trip.pendingTooOld, sample))
    {
      hide CheckedSnapshot, SessionSnapshot;
      id := [];
      if OfflineAuthorized(state) || !state.sessionRequired {
        var (s, snapshot) := CheckedSnapshot(state, sample);
        state := s;
        return Ok(Some(snapshot)), id;
      }
      if explicit { state := state.(sessionDisabled := false); }
      if state.session.Some? {
        var (s, snapshot) := SessionSnapshot(state, sample);
        state := s;
        if snapshot.access == Online { return Ok(Some(snapshot)), id; }
      }
      if state.sessionDisabled { return Err(SessionRequired), id; }
      if state.credential.None? { return Err(NotActivated), id; }
      id := trip.newID;
      if state.pendingSessionID.Some? && !trip.pendingTooOld { id := state.pendingSessionID.value; }
      state := state.(pendingSessionID := Some(id));
      return Ok(None), id;
    }

    /** The last section: the seat counts only if no invalidation, logout or EndSession came between. */
    method FinishSeat(generation: nat, id: Text, found: Found, reply: SeatReply) returns (r: Answered)
      modifies this
      ensures r == SeatAnswer(generation, id, found, reply)
      ensures r.Ok? ==> SameSeat(reply, id, 1) && Entered(found).generation == generation && r.value.access == Online
      ensures Enters(found) ==>
                var w := Around(found.store, generation, Fence.NewSeat(id));
                var e := Fence.DoTakeSeat(w, Holding(Entered(found)), 0, reply, found.cancelled, found.sample);
                state == e.party.state && store == e.store && (r.Ok? ==> e.shown == Some((r.value, Some(0))))
    {
      hide SessionSnapshot;
      var failure := Enter(generation, found);
      if failure.Some? { return Err(failure.value); }
      state := FinishStart(state, id, reply, found.cancelled);
      if found.cancelled || reply.CallerCancelled? { return Err(Cancelled); }
      if !SameSeat(reply, id, 1) { return Err(if reply.NoReply? then TransientError else DeniedError); }
      var (s, snapshot) := SessionSnapshot(state, found.sample);
      state := s;
      if snapshot.access != Online { return Err(SessionRequired); }
      return Ok(snapshot);
    }

    method StartSessionSerialized(generation: nat, explicit: bool, first: Found, trip: Trip, last: Found)
      returns (r: Answered)
      modifies this
      ensures r == SerializedAnswer(generation, explicit, first, trip, last)
    {
      hide StartSeat, SeatAnswer, EnterFailure;
      var begun, id := BeginSeat(generation, explicit, first, trip);
      if begun.Err? { return Err(begun.error); }
      if begun.value.Some? { return Ok(begun.value.value); }
      if trip.startFails { return Err(ClockUncertain); }
      r := FinishSeat(generation, id, last, trip.reply);
    }

    /** generation and checkGeneration: one synchronised look. */
    method Generation(found: Found) returns (generation: Result<nat, Failure>)
      modifies this
      ensures generation == GenerationOf(found)
      ensures state == Entered(found) && store == EnteredStore(found) && closed == found.closed
    {
      Relock(found);
      var failure := SyncStorageLocked(found.fault);
      return if failure.Some? then Err(failure.value) else Ok(state.generation);
    }

    method LockOperation(generation: nat, gate: Found) returns (failure: Option<Failure>)
      modifies this
      ensures failure == LockFailure(generation, gate)
    {
      if gate.cancelled { return Some(Cancelled); }
      var current := Generation(gate);
      if current.Err? { return Some(current.error); }
      if current.value != generation { return Some(StaleResponse); }
      return None;
    }

    /** Whatever a success enables is backed where SessionGrants says. */
    method StartSession(run: SeatRun) returns (r: Answered)
      modifies this
      ensures r == StartSessionAnswer(run)
      ensures r.Ok? ==> forall feature :: r.value.HasFeature(feature) ==> SessionGrants(run, r.value, feature)
      ensures forall feature :: r.Ok? && r.value.HasFeature(feature) <==> SessionGives(run, feature)
    {
      forall feature
        ensures StartSessionAnswer(run).Ok? && StartSessionAnswer(run).value.HasFeature(feature) <==>
                  SessionGives(run, feature)
      {
        SessionGivesIff(run, feature);
      }
      forall feature | StartSessionAnswer(run).Ok? && StartSessionAnswer(run).value.HasFeature(feature)
        ensures SessionGrants(run, StartSessionAnswer(run).value, feature)
      {
        SessionIsBacked(run, feature);
      }
      hide SessionGrants, SessionGives, SerializedAnswer;
      if run.first.cancelled { return Err(Cancelled); }
      Relock(run.first);
      var failure := SyncStorageLocked(run.first.fault);
      if failure.Some? { return Err(failure.value); }
      if OfflineAuthorized(state) || (state.sessionPolicyKnown && !state.sessionRequired) {
        SecondSync(run.first);
        r := CheckedSnapshotLocked(run.first.fault, run.first.sample);
        return;
      }
      if !state.sessionPolicyKnown {
        if state.credential.None? { return Err(NotActivated); }
        if run.refreshed.Some? { return Err(run.refreshed.value); }
      }
      var generation := Generation(run.look);
      if generation.Err? { return Err(generation.error); }
      var failed := LockOperation(generation.value, run.gate);
      if failed.Some? { return Err(failed.value); }
      r := StartSessionSerialized(generation.value, true, run.begin, run.trip, run.end);
    }

    /** Success is a usable snapshot that enables the feature, by authority that one of this call's sections found and
        that had not expired at the clock reading of that section: RequireGrants names the section and its state. And it
        is owed exactly where RequireGives finds such authority. */
    method RequireAccess(feature: Text, run: RequireRun) returns (r: Answered)
      modifies this
      ensures r == RequireAnswer(run, feature)
      ensures r.Ok? ==> RequireGrants(run, r.value, feature) && r.value.HasFeature(feature)
      ensures r.Ok? ==> r.value.access == Online || r.value.access == Offline
      ensures r.Ok? <==> RequireGives(run, feature)
    {
      AccessIsGivenIff(run, feature);
      hide RequireGrants, RequireGives, StartSessionAnswer, CheckedSnapshot, PathOf;
      if RequireAnswer(run, feature).Ok? { RequiredAccessIsBacked(run, feature); }
      if run.cancelled { return Err(Cancelled); }
      Relock(run.first);
      SameLook(run.first);
      var checked := CheckedSnapshotLocked(run.first.fault, run.first.sample);
      if checked.Err? { return checked; }
      if run.first.cancelled { return Err(Cancelled); }
      var snapshot := checked.value;
      if snapshot.offlineFileMode {
        if snapshot.access == Expired { return Err(FileExpired); }
        if snapshot.access != Offline { return Err(ClockUncertain); }
        if !snapshot.HasFeature(feature) { return Err(FeatureUnavailable); }
        return Ok(snapshot);
      }
      if state.sessionRequired {
        r := RequireSeat(feature, run, snapshot);
        return;
      }
      if snapshot.access == Online {
        if !snapshot.HasFeature(feature) { return Err(FeatureUnavailable); }
        return Ok(snapshot);
      }
      if snapshot.access !in {RefreshRequired, Expired, Offline} { return Err(WhyUnavailable(state)); }
      if run.refreshed.Some? && run.refreshed.value != TransientError { return Err(run.refreshed.value); }
      if run.last.cancelled { return Err(Cancelled); }
      Relock(run.last);
      SameLook(run.last);
      checked := CheckedSnapshotLocked(run.last.fault, run.last.sample);
      if checked.Err? { return checked; }
      if checked.value.access != Online && checked.value.access != Offline { return Err(WhyUnavailable(state)); }
      if !checked.value.HasFeature(feature) { return Err(FeatureUnavailable); }
      return checked;
    }

    /** The floating path, still inside the first section. */
    method RequireSeat(feature: Text, run: RequireRun, snapshot: Snapshot) returns (r: Answered)
      requires state == LookState(run.first) && store == EnteredStore(run.first) && closed == run.first.closed
      modifies this
      ensures r == SeatPathAnswer(run, snapshot, feature)
    {
      hide StartSessionAnswer, CheckedSnapshot, LookState, EnteredStore;
      if snapshot.access == Online {
        if !snapshot.HasFeature(feature) { return Err(FeatureUnavailable); }
        SameLook(Again(run.first, run.second));
        var final := CheckedSnapshotLocked(run.second.fault, run.second.sample);
        if final.Err? { return final; }
        if run.second.cancelled { return Err(Cancelled); }
        if final.value.access != Online { return Err(SessionRequired); }
        if !final.value.HasFeature(feature) { return Err(FeatureUnavailable); }
        return final;
      }
      if state.sessionDisabled { return Err(SessionRequired); }
      var session := StartSession(run.seat);
      if session.Err? { return session; }
      if !session.value.HasFeature(feature) { return Err(FeatureUnavailable); }
      return session;
    }

    /** The end of an activation or validation request. again is the provider's fault during a second storage operation.
        What it answers is what the machine's step shows, and AcceptGrants names the state it rests on. */
    method Accept(generation: nat, purpose: Fence.Purpose, found: Found, reply: Reply, again: Fault)
      returns (r: Answered)
      requires purpose.Activation? || purpose.Validation?
      modifies this
      ensures r == AcceptAnswer(generation, purpose, found, reply, again)
      ensures r.Ok? ==>
                forall feature :: r.value.HasFeature(feature) ==>
                  AcceptGrants(generation, purpose, found, reply, r.value, feature)
      ensures Enters(found) && !found.cancelled ==>
                var w := Around(found.store, generation, purpose);
                var e := Whole(w, Fence.DoAccept(w, Holding(Entered(found)), 0, reply, found.fault, found.sample),
                    again);
                state == e.party.state && store == e.store
      ensures Enters(found) && Entered(found).generation == generation && !found.cancelled ==>
                Does(Entered(found), found.store, purpose, reply, found.fault, again, state, store)
      ensures r.Ok? <==> Accepts(generation, found, reply)
    {
      AcceptAnswersIff(generation, purpose, found, reply, again, []);
      RepliesDo(found.store, Entered(found), purpose, reply, found.fault, again, found.sample);
      forall feature | AcceptAnswer(generation, purpose, found, reply, again).Ok?
                       && AcceptAnswer(generation, purpose, found, reply, again).value.HasFeature(feature)
        ensures AcceptGrants(generation, purpose, found, reply,
            AcceptAnswer(generation, purpose, found, reply, again).value, feature)
      {
        AcceptedIsBacked(generation, purpose, found, reply, again, feature);
      }
      hide AcceptGrants, Accepts, Does, Told, AcceptFailure, Fence.DoGood, Fence.DoOutage, Fence.DoWithhold,
        Fence.DoSignOff;
      var failure := Enter(generation, found);
      if failure.Some? { return Err(failure.value); }
      if found.cancelled { return Err(Cancelled); }
      r := Conclude(purpose, reply, found.fault, again, found.sample);
    }

    method Conclude(purpose: Fence.Purpose, reply: Reply, fault: Fault, again: Fault, sample: Sample)
      returns (r: Answered)
      requires purpose.Activation? || purpose.Validation?
      modifies this
      ensures closed == old(closed) && r == Concluded(old(store), old(state), purpose, reply, fault, again, sample)
      ensures var e := AcceptEffect(old(store), old(state), purpose, reply, fault, again, sample);
              state == e.party.state && store == e.store
    {
      hide SnapshotLocked, InvalidateStore, SaveAt, WithholdFails, Fence.DoWithhold, Fence.DoGood, Fence.DoSignOff,
          Fence.DoOutage;
      if reply.Good? { GoodIsWhole(store, state, purpose, reply, fault, sample); }
      match reply {
        case Good(verified) =>
          r := Take(purpose, verified, fault, sample, old(state).generation);
        case Unavailable(verifying) =>
          r := Outage(verifying, sample, old(state).generation, purpose);
        case Abandoned => r := Err(Cancelled);
        case Unsupported =>
          r := Err(VersionUnsupported);
          if purpose.Validation? {
            state := AfterUnsupported(state);
          } else {
            var failure := Withhold(fault, again, old(state).generation, purpose);
            if failure.Some? { r := Err(failure.value); }
          }
        case Withheld =>
          var failure := Withhold(fault, again, old(state).generation, purpose);
          r := Err(if failure.Some? then failure.value else DeniedError);
        case _ =>
          var failure := Discard(fault, old(state).generation, purpose);
          r := Err(if failure.Some? then failure.value else if reply.Dead? then DeniedError else InvalidResponse);
      }
    }

    method InvalidateLocked(fault: Fault) returns (failure: Option<Failure>)
      modifies this
      ensures closed == old(closed) && store == InvalidateStore(old(store), fault).0
      ensures state == Invalidated(old(state), InvalidateStore(old(store), fault).1)
      ensures failure == if InvalidateStore(old(store), fault).1.None? then Some(StorageError) else None
    {
      var (after, version) := InvalidateStore(store, fault);
      store := after;
      if version.None? { return Some(StorageError); }
      state := state.(storageVersion := version.value);
      return None;
    }

    /** A transient failure: offline work only within a verified grant. */
    method Outage(verifying: bool, sample: Sample, ghost generation: nat, ghost purpose: Fence.Purpose)
      returns (r: Answered)
      modifies this
      ensures var e := Fence.DoOutage(Around(old(store), generation, purpose), Holding(old(state)), verifying, sample);
              && state == e.party.state && store == e.store && closed == old(closed) && !e.party.stage.Resaving?
              && r == if e.shown.Some? then Ok(e.shown.value.0) else Err(TransientError)
    {
      hide SnapshotLocked;
      state := AfterOutage(state, verifying);
      var snapshot := LookLocked(sample);
      return if snapshot.access == Offline then Ok(snapshot) else Err(TransientError);
    }

    /** The credential is dead, or the reply cannot be trusted. */
    method Discard(fault: Fault, ghost generation: nat, ghost purpose: Fence.Purpose) returns (failure: Option<Failure>)
      modifies this
      ensures var e := Fence.DoSignOff(Around(old(store), generation, purpose), Holding(old(state)), false, fault);
              && state == e.party.state && store == e.store && closed == old(closed) && !e.party.stage.Resaving?
                  && e.shown.None?
      ensures failure == if InvalidateStore(old(store), fault).1.None? then Some(StorageError) else None
    {
      hide InvalidateStore;
      state := ClearState(state);
      failure := InvalidateLocked(fault);
    }

    /** A denial that keeps the credential: both storage operations of one section, with nobody in between. */
    method Withhold(fault: Fault, again: Fault, ghost generation: nat, ghost purpose: Fence.Purpose)
      returns (failure: Option<Failure>)
      modifies this
      ensures var w := Around(old(store), generation, purpose);
              var e := Whole(w, Fence.DoWithhold(w, Holding(old(state)), fault), again);
              state == e.party.state && store == e.store && closed == old(closed) && e.shown.None?
      ensures failure == if WithholdFails(old(store), old(state), fault, again) then Some(StorageError) else None
    {
      hide InvalidateStore, SaveAt;
      var kept, account := state.credential, state.account;
      state := ClearState(state);
      var (after, version) := InvalidateStore(store, fault);
      store := after;
      if version.None? { return Some(StorageError); }
      if kept.Some? {
        var (final, saved) := SaveAt(store, version.value, kept.value, again);
        store := final;
        if saved != Saved { return Some(StorageError); }
      }
      state := state.(storageVersion := version.value, credential := kept, account := account);
      return None;
    }

    /** A verified reply: save it, and only then let it grant anything. */
    method Take(purpose: Fence.Purpose, verified: Verified, fault: Fault, sample: Sample, ghost generation: nat)
      returns (r: Answered)
      modifies this
      ensures var e := Fence.DoGood(Around(old(store), generation, purpose), Holding(old(state)), 0, verified, fault,
          sample);
              && state == e.party.state && store == e.store && closed == old(closed)
              && (r.Ok? <==> e.shown.Some?) && (r.Ok? ==> r.value == e.shown.value.0)
      ensures r.Err? ==>
                var saved := SaveAt(old(store), old(state).storageVersion, verified.saved, fault).1;
                r.error == if saved == Stale then StaleResponse else StorageError
    {
      hide SnapshotLocked, SaveAt, Installed, ClearState;
      var (after, saved) := SaveAt(store, state.storageVersion, verified.saved, fault);
      store := after;
      if saved != Saved {
        state := ClearState(state);
        return Err(if saved == Stale then StaleResponse else StorageError);
      }
      state := Installed(state, verified, if purpose.Validation? then Some(purpose.previous) else None);
      var snapshot := LookLocked(sample);
      return Ok(snapshot);
    }

    method LookLocked(sample: Sample) returns (snapshot: Snapshot)
      modifies this
      ensures (state, snapshot) == SnapshotLocked(old(state), sample) && store == old(store) && closed == old(closed)
    {
      var (s, shown) := SnapshotLocked(state, sample);
      state := s;
      return shown;
    }

    /** Logout, and the clearing half of Deactivate: local access is gone even when storage fails. */
    method SignOff(keepAccount: bool, found: Found) returns (failure: Option<Failure>)
      modifies this
      ensures Enters(found) ==>
                var e := Fence.DoSignOff(Around(found.store, 0, Fence.Activation), Holding(Entered(found)), keepAccount,
                    found.fault);
                state == e.party.state && store == e.store
      ensures found.closed || (state.claims.None? && state.session.None? && state.credential.None?)
      ensures failure == if EntryFailure(found).Some? then EntryFailure(found)
                         else if TakesInvalidation(found.store, found.fault) then None else Some(StorageError)
    {
      Relock(found);
      failure := SyncStorageLocked(found.fault);
      if failure.Some? { return; }
      state := if keepAccount then ClearAccess(state) else ClearState(state);
      failure := InvalidateLocked(found.fault);
    }

    /** The last section of EndSession; the seat to release, if any. */
    method EndSession(found: Found) returns (failure: Option<Failure>, released: Option<Text>)
      modifies this
      ensures failure == EntryFailure(found)
      ensures failure.None? ==>
                state == if Entered(found).sessionRequired then EndSeat(Entered(found)) else Entered(found)
      ensures released ==
                if failure.Some? || !Entered(found).sessionRequired || Entered(found).credential.None? then None
                else if Entered(found).session.Some? then Some(Entered(found).session.value.id)
                else Entered(found).pendingSessionID
    {
      released := None;
      Relock(found);
      failure := SyncStorageLocked(found.fault);
      if failure.Some? || !state.sessionRequired { return; }
      if state.credential.Some? {
        released := if state.session.Some? then Some(state.session.value.id) else state.pendingSessionID;
      }
      state := state.(session := None, pendingSessionID := None, sessionDisabled := true,
          generation := state.generation + 1);
    }

    /** The first section of a renewal: a retry repeats the number of the renewal whose reply was lost. */
    method BeginRenewing(generation: nat, found: Found) returns (r: Result<(Text, nat), Failure>)
      modifies this
      ensures r.Ok? <==>
                && EnterFailure(generation, found).None? && Entered(found).session.Some?
                && Entered(found).credential.Some?
      ensures r.Ok? ==>
                && Entered(found).generation == generation && r.value.0 == Entered(found).session.value.id
                && state == BeginRenewal(Entered(found)) && Renewing(state, r.value.0, r.value.1)
      ensures r.Err? ==> state == Entered(found)
    {
      var failure := Enter(generation, found);
      if failure.Some? { return Err(failure.value); }
      if state.session.None? || state.credential.None? { return Err(SessionRequired); }
      var session := state.session.value;
      var sequence := session.pendingSequence;
      if sequence == 0 {
        sequence := session.sequence + 1;
        state := state.(session := Some(session.(pendingSequence := sequence)));
      }
      return Ok((session.id, sequence));
    }

    method FinishRenewing(generation: nat, id: Text, sequence: nat, found: Found, reply: SeatReply)
      returns (r: Answered)
      modifies this
      ensures Enters(found) ==>
                var w := Around(found.store, generation, Fence.Renewal(id, sequence));
                var e := Fence.DoTakeRenewal(w, Holding(Entered(found)), 0, reply, found.cancelled, found.sample);
                && state == e.party.state && store == e.store
                && (r.Ok? <==> e.shown.Some?) && (r.Ok? ==> r.value == e.shown.value.0)
      ensures r == RenewalAnswer(generation, id, sequence, found, reply)
      ensures r.Ok? ==> Enters(found) && SameSeat(reply, id, sequence) && Entered(found).generation == generation
      ensures r.Ok? ==> Renewing(Entered(found), id, sequence) && r.value.access == Online
    {
      hide SessionSnapshot;
      var failure := Enter(generation, found);
      if failure.Some? { return Err(failure.value); }
      if found.cancelled {
        state := state.(session := None, sessionDisabled := true);
        return Err(Cancelled);
      }
      if !SameSeat(reply, id, sequence) {
        if reply.NoReply? { return Err(TransientError); }
        state := state.(session := None, sessionDisabled := true);
        if reply.SeatExpired? { state := state.(pendingSessionID := None, sessionDisabled := false); }
        return Err(DeniedError);
      }
      if state.session.None? || state.session.value.id != id || state.session.value.pendingSequence != sequence {
        return Err(StaleResponse);
      }
      state := state.(session := Some(Seat(reply)));
      var (s, snapshot) := SessionSnapshot(state, found.sample);
      state := s;
      if snapshot.access != Online { return Err(SessionRequired); }
      return Ok(snapshot);
    }

    /** The first section of an activation with a key: everything is cleared and invalidated before anything is sent. */
    method BeginActivating(generation: nat, found: Found) returns (r: Result<nat, Failure>)
      modifies this
      ensures r == BeginAnswer(generation, found)
      ensures r.Ok? ==>
                && r.value == state.generation > generation && state.storageVersion == store.version
                && state.claims.None? && state.session.None? && state.credential.None?
      ensures Enters(found) && Entered(found).generation == generation ==>
                var e := Fence.DoBeginActivation(Around(found.store, 0, Fence.Activation), 0, Holding(Entered(found)),
                  false, found.fault);
                state == e.party.state && store == e.store
    {
      var failure := Enter(generation, found);
      if failure.Some? { return Err(failure.value); }
      state := ClearState(state);
      failure := InvalidateLocked(found.fault);
      if failure.Some? { return Err(failure.value); }
      return Ok(state.generation);
    }

    /** Activate with a key, to its end, with a floating seat acquired where the policy asks for one. */
    method Activate(run: ActivateRun) returns (r: Answered)
      modifies this
      ensures r == ActivateAnswer(run)
      ensures forall feature :: r.Ok? && r.value.HasFeature(feature) <==> ActivationGives(run, feature)
    {
      forall feature
        ensures ActivateAnswer(run).Ok? && ActivateAnswer(run).value.HasFeature(feature) <==>
                  ActivationGives(run, feature)
      {
        ActivationGivesIff(run, feature);
      }
      hide AcceptAnswer, SerializedAnswer, BeginAnswer, EnterFailure, AcceptGrants, ActivationGives, Accepts, Does;
      var generation := Generation(run.look);
      if generation.Err? { return Err(generation.error); }
      var failed := LockOperation(generation.value, run.gate);
      if failed.Some? { return Err(failed.value); }
      var begun := BeginActivating(generation.value, run.begin);
      if begun.Err? { return Err(begun.error); }
      if run.startFails { return Err(ClockUncertain); }
      var failure := Enter(begun.value, run.checked);
      if failure.Some? { return Err(failure.value); }
      r := Accept(begun.value, Fence.Activation, run.accepted, run.reply, run.again);
      if r.Err? { return r; }
      Relock(run.after);
      if state.sessionRequired && !state.sessionDisabled {
        r := StartSessionSerialized(state.generation, false, run.seat, run.trip, run.end);
      }
    }

    /** The key is asked for exactly when RequireAccess answers that access was not activated, and success rests on what
        RequireAccess found or on the activation made with the key. */
    method EnsureAccess(feature: Text, run: RequireRun, prompt: Option<Result<Text, Failure>>, activation: ActivateRun,
        cancelled: bool)
      returns (r: Answered, asked: bool)
      modifies this
      ensures r == EnsureAnswer(run, feature, prompt, activation, cancelled)
      ensures asked <==> RequireAnswer(run, feature) == Err(NotActivated) && prompt.Some?
      ensures r.Ok? ==>
                if asked then ActivateGrants(activation, r.value, feature) else RequireGrants(run, r.value, feature)
      ensures r.Ok? ==> r.value.HasFeature(feature) && (r.value.access == Online || r.value.access == Offline)
      ensures r.Ok? <==>
                if asked then
                  prompt.value.Ok? && prompt.value.value != [] && !cancelled && ActivationGives(activation, feature)
                else RequireGives(run, feature)
    {
      AccessIsEnsuredIff(run, feature, prompt, activation, cancelled);
      hide RequireAnswer, ActivateAnswer, RequireGrants, ActivateGrants, RequireGives, ActivationGives;
      if EnsureAnswer(run, feature, prompt, activation, cancelled).Ok? {
        EnsuredAccessIsBacked(run, feature, prompt, activation, cancelled);
      }
      asked := false;
      r := RequireAccess(feature, run);
      if r != Err(NotActivated) { return; }
      if prompt.None? { return; }
      asked := true;
      if prompt.value.Err? { return Err(prompt.value.error), asked; }
      if prompt.value.value == [] { return; }
      var activated := Activate(activation);
      if activated.Err? { return activated, asked; }
      if cancelled { return Err(Cancelled), asked; }
      if activated.value.access != Online && activated.value.access != Offline { return Err(NotActivated), asked; }
      if !activated.value.HasFeature(feature) { return Err(FeatureUnavailable), asked; }
      return activated, asked;
    }
  }

  /** A section that has just taken the lock looks at what it found. */
  lemma SameLook(found: Found)
    ensures var now := Found(found.state, found.store, found.closed, found.fault, found.sample, false);
            && LookAnswer(now) == LookAnswer(found) && LookState(now) == LookState(found)
                && EnteredStore(now) == EnteredStore(found)
  {
    hide CheckedSnapshot, Synced;
  }

  /** Synchronising twice in one section is synchronising once. */
  lemma SecondSync(found: Found)
    requires Enters(found)
    ensures var now := Found(Entered(found), EnteredStore(found), found.closed, found.fault, found.sample, false);
            LookAnswer(now) == LookAnswer(found)
  {
    hide CheckedSnapshot;
  }
}
