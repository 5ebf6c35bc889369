/** What the access operations of sdk/go/access.go and sdk/go/sessions.go answer, as a function of what each of their
    critical sections finds; and what a success therefore rests on. Between two sections everything may change. */
module Decisions {
  import opened Common
  import opened Text
  import opened Storage
  import opened Clock
  import opened Access
  import Fence

  /** What a critical section finds when it takes the lock: the fields as other goroutines left them, the adapter as
      other clients left it, the clocks, and whether the caller has cancelled by then. */
  datatype Found = Found(state: AccessState, store: Store, closed: bool, fault: Fault, sample: Sample, cancelled: bool)

  /** Another look in the same section. */
  datatype Glance = Glance(fault: Fault, sample: Sample, cancelled: bool)

  /** How the network part of a seat request went. */
  datatype Trip = Trip(newID: Text, pendingTooOld: bool, startFails: bool, reply: SeatReply)

  /** What the sections of one StartSession find. refreshed is the failure of the Refresh made while the licence's
      policy is still unknown, if any. */
  datatype SeatRun = SeatRun(
    first: Found, refreshed: Option<Failure>, look: Found, gate: Found, begin: Found, trip: Trip, end: Found)

  /** The same for RequireAccess; refreshed is how its own refresh failed, if it did. */
  datatype RequireRun = RequireRun(
    cancelled: bool, first: Found, second: Glance, seat: SeatRun, refreshed: Option<Failure>, last: Found)

  /** The same for Activate; again is the provider's fault during a second storage operation of one section. */
  datatype ActivateRun = ActivateRun(
    look: Found, gate: Found, begin: Found, startFails: bool, checked: Found, reply: Reply, accepted: Found,
    again: Fault, after: Found, seat: Found, trip: Trip, end: Found)

  type Answered = Result<Snapshot, Failure>

  // ----- Entering a section -----

  /** The state right after the section has synchronised with storage. */
  function Entered(found: Found): AccessState {
    if found.closed then found.state else Synced(found.state, ReadVersion(found.store, found.fault).1).0
  }

  function EnteredStore(found: Found): Store {
    if found.closed then found.store else ReadVersion(found.store, found.fault).0
  }

  predicate Enters(found: Found) { !found.closed && Readable(found.store, found.fault) }

  function EntryFailure(found: Found): Option<Failure> {
    if found.closed then Some(ClientClosed) else if Readable(found.store, found.fault) then None else Some(StorageError)
  }

  function EnterFailure(generation: nat, found: Found): Option<Failure> {
    if EntryFailure(found).Some? then EntryFailure(found)
    else if Entered(found).generation != generation then Some(StaleResponse)
    else None
  }

  function LockFailure(generation: nat, gate: Found): Option<Failure> {
    if gate.cancelled then Some(Cancelled) else EnterFailure(generation, gate)
  }

  function GenerationOf(found: Found): Result<nat, Failure> {
    if EntryFailure(found).Some? then Err(EntryFailure(found).value) else Ok(Entered(found).generation)
  }

  /** checkedSnapshotLocked on what the section finds. */
  function LookAnswer(found: Found): Answered {
    if EntryFailure(found).Some? then Err(EntryFailure(found).value)
        else Ok(CheckedSnapshot(Entered(found), found.sample).1)
  }

  function LookState(found: Found): AccessState {
    if EntryFailure(found).Some? then Entered(found) else CheckedSnapshot(Entered(found), found.sample).0
  }

  /** What a second look in the same section finds. */
  function Again(found: Found, glance: Glance): Found {
    Found(LookState(found), EnteredStore(found), found.closed, glance.fault, glance.sample, glance.cancelled)
  }

  // ----- Floating seats -----

  /** The last section of a seat request. */
  function SeatAnswer(generation: nat, id: Text, found: Found, reply: SeatReply): Answered {
    if EnterFailure(generation, found).Some? then Err(EnterFailure(generation, found).value)
    else if found.cancelled || reply.CallerCancelled? then Err(Cancelled)
    else if !SameSeat(reply, id, 1) then Err(if reply.NoReply? then TransientError else DeniedError)
    else
      var snapshot := SessionSnapshot(FinishStart(Entered(found), id, reply, false), found.sample).1;
      if snapshot.access == Online then Ok(snapshot) else Err(SessionRequired)
  }

  function Started(explicit: bool, found: Found, trip: Trip): SeatStart {
    StartSeat(Entered(found), explicit, trip.newID, trip.pendingTooOld, found.sample)
  }

  function SerializedAnswer(generation: nat, explicit: bool, first: Found, trip: Trip, last: Found): Answered {
    if EnterFailure(generation, first).Some? then Err(EnterFailure(generation, first).value)
    else
      match Started(explicit, first, trip)
      case Answer(_, snapshot) => Ok(snapshot)
      case Refuse(_, failure) => Err(failure)
      case Ask(_, id) => if trip.startFails then Err(ClockUncertain) else SeatAnswer(generation, id, last, trip.reply)
  }

  /** The last section of a renewal. */
  function RenewalAnswer(generation: nat, id: Text, number: nat, found: Found, reply: SeatReply): Answered {
    if EnterFailure(generation, found).Some? then Err(EnterFailure(generation, found).value)
    else if found.cancelled then Err(Cancelled)
    else if !SameSeat(reply, id, number) then Err(if reply.NoReply? then TransientError else DeniedError)
    else if !Renewing(Entered(found), id, number) then Err(StaleResponse)
    else
      var snapshot := SessionSnapshot(FinishRenewal(Entered(found), id, number, reply, false), found.sample).1;
      if snapshot.access == Online then Ok(snapshot) else Err(SessionRequired)
  }

  function StartSessionAnswer(run: SeatRun): Answered {
    var s := Entered(run.first);
    if run.first.cancelled then Err(Cancelled)
    else if EntryFailure(run.first).Some? then Err(EntryFailure(run.first).value)
    else if OfflineAuthorized(s) || (s.sessionPolicyKnown && !s.sessionRequired) then LookAnswer(run.first)
    else if !s.sessionPolicyKnown && s.credential.None? then Err(NotActivated)
    else if !s.sessionPolicyKnown && run.refreshed.Some? then Err(run.refreshed.value)
    else
      match GenerationOf(run.look)
      case Err(failure) => Err(failure)
      case Ok(generation) =>
        if LockFailure(generation, run.gate).Some? then Err(LockFailure(generation, run.gate).value)
        else SerializedAnswer(generation, true, run.begin, run.trip, run.end)
  }

  // ----- RequireAccess -----

  /** Why access is unavailable. */
  function WhyUnavailable(s: AccessState): Failure {
    if s.unsupported then VersionUnsupported
    else if s.credential.Some? && s.failure.Some? then s.failure.value
    else if s.transient then TransientError
    else NotActivated
  }

  function WithFeature(snapshot: Snapshot, feature: Text): Answered {
    if snapshot.HasFeature(feature) then Ok(snapshot) else Err(FeatureUnavailable)
  }

  function FileAnswer(snapshot: Snapshot, feature: Text): Answered {
    if snapshot.access == Expired then Err(FileExpired)
    else if snapshot.access != Offline then Err(ClockUncertain)
    else WithFeature(snapshot, feature)
  }

  /** A seat that is Online is looked at once more. */
  function SecondAnswer(found: Found, feature: Text): Answered {
    match LookAnswer(found)
    case Err(failure) => Err(failure)
    case Ok(snapshot) =>
      if found.cancelled then Err(Cancelled)
      else if snapshot.access != Online then Err(SessionRequired)
      else WithFeature(snapshot, feature)
  }

  function SeatPathAnswer(run: RequireRun, snapshot: Snapshot, feature: Text): Answered {
    if snapshot.access == Online then
      if snapshot.HasFeature(feature) then SecondAnswer(Again(run.first, run.second), feature)
          else Err(FeatureUnavailable)
    else if LookState(run.first).sessionDisabled then Err(SessionRequired)
    else
      match StartSessionAnswer(run.seat)
      case Err(failure) => Err(failure)
      case Ok(session) => WithFeature(session, feature)
  }

  function RefreshedAnswer(run: RequireRun, feature: Text): Answered {
    if run.refreshed.Some? && run.refreshed.value != TransientError then Err(run.refreshed.value)
    else if run.last.cancelled then Err(Cancelled)
    else
      match LookAnswer(run.last)
      case Err(failure) => Err(failure)
      case Ok(snapshot) =>
        if snapshot.access != Online && snapshot.access != Offline then Err(WhyUnavailable(LookState(run.last)))
        else WithFeature(snapshot, feature)
  }

  function RequireAnswer(run: RequireRun, feature: Text): Answered {
    if run.cancelled then Err(Cancelled)
    else
      match LookAnswer(run.first)
      case Err(failure) => Err(failure)
      case Ok(snapshot) =>
        if run.first.cancelled then Err(Cancelled)
        else if snapshot.offlineFileMode then FileAnswer(snapshot, feature)
        else if LookState(run.first).sessionRequired then SeatPathAnswer(run, snapshot, feature)
        else if snapshot.access == Online then WithFeature(snapshot, feature)
        else if snapshot.access == Denied then Err(WhyUnavailable(LookState(run.first)))
        else RefreshedAnswer(run, feature)
  }

  // ----- Activation -----

  /** The step of the interleaved machine that a critical section makes: its storage, the request it answers, and the
      client inside its section. */
  function Around(store: Store, generation: nat, purpose: Fence.Purpose): Fence.World {
    Fence.World(store, [], [Fence.Request(0, generation, 0, purpose, Fence.Nothing)], 0, [], [])
  }

  function Holding(s: AccessState): Fence.Party { Fence.Party(s, false, Fence.Looked(0), None, None) }

  /** The two storage operations of accept with nobody in between. */
  function Whole(w: Fence.World, e: Fence.Effect, again: Fault): Fence.Effect {
    if e.party.stage.Resaving? then Fence.DoResave(w.(store := e.store), e.party, again) else e
  }

  function AcceptEffect(store: Store, s: AccessState, purpose: Fence.Purpose, reply: Reply, fault: Fault, again: Fault,
      sample: Sample)
    : Fence.Effect
  {
    var w := Around(store, s.generation, purpose);
    Whole(w, Fence.DoAccept(w, Holding(s), 0, reply, fault, sample), again)
  }

  function WithholdFails(store: Store, s: AccessState, fault: Fault, again: Fault): bool {
    var (after, version) := InvalidateStore(store, fault);
    version.None? || (s.credential.Some? && SaveAt(after, version.value, s.credential.value, again).1 != Saved)
  }

  /** The failure of an acceptance that shows nothing. */
  function AcceptFailure(store: Store, s: AccessState, purpose: Fence.Purpose, reply: Reply, fault: Fault,
      again: Fault): Failure {
    match reply
    case Good(v) => if SaveAt(store, s.storageVersion, v.saved, fault).1 == Stale then StaleResponse else StorageError
    case Unavailable(_) => TransientError
    case Abandoned => Cancelled
    case Unsupported =>
      if !purpose.Validation? && WithholdFails(store, s, fault, again) then StorageError else VersionUnsupported
    case Withheld => if WithholdFails(store, s, fault, again) then StorageError else DeniedError
    case Dead => if InvalidateStore(store, fault).1.None? then StorageError else DeniedError
    case Unacceptable => if InvalidateStore(store, fault).1.None? then StorageError else InvalidResponse
  }

  function AcceptAnswer(generation: nat, purpose: Fence.Purpose, found: Found, reply: Reply, again: Fault): Answered {
    if EnterFailure(generation, found).Some? then Err(EnterFailure(generation, found).value)
    else if found.cancelled then Err(Cancelled)
    else Concluded(found.store, Entered(found), purpose, reply, found.fault, again, found.sample)
  }

  function Concluded(store: Store, s: AccessState, purpose: Fence.Purpose, reply: Reply, fault: Fault, again: Fault,
      sample: Sample): Answered {
    var e := AcceptEffect(store, s, purpose, reply, fault, again, sample);
    if e.shown.Some? then Ok(e.shown.value.0) else Err(AcceptFailure(store, s, purpose, reply, fault, again))
  }

  /** The first section of an activation with a key: the generation its request belongs to. */
  function BeginAnswer(generation: nat, found: Found): Result<nat, Failure> {
    if EnterFailure(generation, found).Some? then Err(EnterFailure(generation, found).value)
    else if InvalidateStore(found.store, found.fault).1.None? then Err(StorageError)
    else Ok(generation + 1)
  }

  function ActivateAnswer(run: ActivateRun): Answered {
    match GenerationOf(run.look)
    case Err(failure) => Err(failure)
    case Ok(generation) =>
      if LockFailure(generation, run.gate).Some? then Err(LockFailure(generation, run.gate).value)
      else
        match BeginAnswer(generation, run.begin)
        case Err(failure) => Err(failure)
        case Ok(begun) =>
          if run.startFails then Err(ClockUncertain)
          else if EnterFailure(begun, run.checked).Some? then Err(EnterFailure(begun, run.checked).value)
          else
            match AcceptAnswer(begun, Fence.Activation, run.accepted, run.reply, run.again)
            case Err(failure) => Err(failure)
            case Ok(snapshot) =>
              var s := run.after.state;
              if s.sessionRequired && !s.sessionDisabled
                  then SerializedAnswer(s.generation, false, run.seat, run.trip, run.end)
              else Ok(snapshot)
  }

  /** A key is asked for exactly when RequireAccess answers that access was not activated. */
  predicate Asks(run: RequireRun, feature: Text, prompt: Option<Result<Text, Failure>>) {
    RequireAnswer(run, feature) == Err(NotActivated) && prompt.Some?
  }

  /** The prompt's key is given without surrounding blanks. */
  function EnsureAnswer(
    run: RequireRun, feature: Text, prompt: Option<Result<Text, Failure>>, activation: ActivateRun,
        cancelled: bool): Answered
  {
    if !Asks(run, feature, prompt) then RequireAnswer(run, feature)
    else
      match prompt.value
      case Err(failure) => Err(failure)
      case Ok(key) =>
        if key == [] then Err(NotActivated)
        else
          match ActivateAnswer(activation)
          case Err(failure) => Err(failure)
          case Ok(snapshot) =>
            if cancelled then Err(Cancelled)
            else if snapshot.access != Online && snapshot.access != Offline then Err(NotActivated)
            else WithFeature(snapshot, feature)
  }

  // ----- What a success rests on -----

  /** The snapshot of what this section found enables the feature, by authority held then and unexpired then. */
  ghost predicate ShownAt(found: Found, snapshot: Snapshot, feature: Text) {
    Enters(found) && LookAnswer(found) == Ok(snapshot) && Backed(Entered(found), found.sample, snapshot, feature)
  }

  /** The state a seat request looks at. */
  function SeatView(s: AccessState, explicit: bool): AccessState {
    if OfflineAuthorized(s) || !s.sessionRequired || !explicit then s else s.(sessionDisabled := false)
  }

  /** Either what the first section found was enough, in the generation asked for, or the reply to its request put a
      seat into what the last section found, still in that generation. */
  ghost predicate SeatGrants(generation: nat, explicit: bool, first: Found, trip: Trip, last: Found, snapshot: Snapshot,
      feature: Text) {
    && Enters(first) && Entered(first).generation == generation
    && (|| Backed(SeatView(Entered(first), explicit), first.sample, snapshot, feature)
        || (&& Started(explicit, first, trip).Ask? && SameSeat(trip.reply, Started(explicit, first, trip).id, 1)
            && Enters(last) && Entered(last).generation == generation && !last.cancelled
            && BackedBySeat(Entered(last).(session := Some(Seat(trip.reply))), last.sample, snapshot, feature)))
  }

  ghost predicate SessionGrants(run: SeatRun, snapshot: Snapshot, feature: Text) {
    || ShownAt(run.first, snapshot, feature)
    || (GenerationOf(run.look).Ok? && SeatGrants(GenerationOf(run.look).value, true, run.begin, run.trip, run.end,
        snapshot, feature))
  }

  /** The four places a success of RequireAccess can come from. */
  ghost predicate RequireGrants(run: RequireRun, snapshot: Snapshot, feature: Text) {
    || ShownAt(run.first, snapshot, feature)
    || ShownAt(Again(run.first, run.second), snapshot, feature)
    || SessionGrants(run.seat, snapshot, feature)
    || ShownAt(run.last, snapshot, feature)
  }

  /** The reply was saved and became the client's authority, or an outage left what the section found; and that
      authority enables the feature. */
  ghost predicate AcceptGrants(generation: nat, purpose: Fence.Purpose, found: Found, reply: Reply, snapshot: Snapshot,
      feature: Text) {
    && Enters(found) && Entered(found).generation == generation && !found.cancelled
    && var s := Entered(found);
    && (|| (&& reply.Good? && SaveAt(found.store, s.storageVersion, reply.verified.saved, found.fault).1 == Saved
            && Backed(Installed(s, reply.verified, if purpose.Validation? then Some(purpose.previous) else None),
                found.sample, snapshot, feature))
        || (&& reply.Unavailable? && snapshot.access == Offline
            && Backed(AfterOutage(s, reply.verifying), found.sample, snapshot, feature)))
  }

  ghost predicate ActivateGrants(run: ActivateRun, snapshot: Snapshot, feature: Text) {
    var s := run.after.state;
    if s.sessionRequired && !s.sessionDisabled
        then SeatGrants(s.generation, false, run.seat, run.trip, run.end, snapshot, feature)
    else
      && GenerationOf(run.look).Ok?
      && AcceptGrants(GenerationOf(run.look).value + 1, Fence.Activation, run.accepted, run.reply, snapshot, feature)
  }

  lemma LooksAreBacked(found: Found, feature: Text)
    requires LookAnswer(found).Ok? && LookAnswer(found).value.HasFeature(feature)
    ensures ShownAt(found, LookAnswer(found).value, feature)
    ensures LookAnswer(found).value.access == Online || LookAnswer(found).value.access == Offline
  {
    SnapshotsAreBacked(Entered(found), found.sample, feature);
    BackedIsUsable(Entered(found), found.sample, LookAnswer(found).value, feature);
    hide Backed, CheckedSnapshot, Synced;
  }

  lemma StartedIsBacked(explicit: bool, found: Found, trip: Trip, feature: Text)
    requires Started(explicit, found, trip).Answer? && Started(explicit, found, trip).snapshot.HasFeature(feature)
    ensures Backed(SeatView(Entered(found), explicit), found.sample, Started(explicit, found, trip).snapshot, feature)
  {
    SnapshotsAreBacked(SeatView(Entered(found), explicit), found.sample, feature);
    hide Backed, BackedBySeat, CheckedSnapshot, SessionSnapshot, Entered;
    SeatBacks(SeatView(Entered(found), explicit), found.sample, Started(explicit, found, trip).snapshot, feature);
  }

  lemma SeatBacks(s: AccessState, sample: Sample, snapshot: Snapshot, feature: Text)
    ensures BackedBySeat(s, sample, snapshot, feature) ==> Backed(s, sample, snapshot, feature)
  {}

  lemma SerializedIsBacked(generation: nat, explicit: bool, first: Found, trip: Trip, last: Found, feature: Text)
    requires var r := SerializedAnswer(generation, explicit, first, trip, last); r.Ok? && r.value.HasFeature(feature)
    ensures var snapshot := SerializedAnswer(generation, explicit, first, trip, last).value;
            SeatGrants(generation, explicit, first, trip, last, snapshot, feature)
                && (snapshot.access == Online || snapshot.access == Offline)
  {
    hide Backed, BackedBySeat, CheckedSnapshot, SessionSnapshot, Synced, StartSeat;
    var snapshot := SerializedAnswer(generation, explicit, first, trip, last).value;
    var started := Started(explicit, first, trip);
    if started.Answer? {
      StartedIsBacked(explicit, first, trip, feature);
      BackedIsUsable(SeatView(Entered(first), explicit), first.sample, snapshot, feature);
    } else {
      var s := FinishStart(Entered(last), started.id, trip.reply, false);
      SnapshotsAreBacked(s, last.sample, feature);
      SeatOfReply(Entered(last), started.id, trip.reply, last.sample, snapshot, feature);
    }
  }

  /** Dropping the pending ID changes nothing a seat rests on. */
  lemma SeatOfReply(s: AccessState, id: Text, reply: SeatReply, sample: Sample, snapshot: Snapshot, feature: Text)
    requires SameSeat(reply, id, 1) && BackedBySeat(FinishStart(s, id, reply, false), sample, snapshot, feature)
    ensures BackedBySeat(s.(session := Some(Seat(reply))), sample, snapshot, feature)
  {}

  lemma SessionIsBacked(run: SeatRun, feature: Text)
    requires StartSessionAnswer(run).Ok? && StartSessionAnswer(run).value.HasFeature(feature)
    ensures var snapshot := StartSessionAnswer(run).value;
            SessionGrants(run, snapshot, feature) && (snapshot.access == Online || snapshot.access == Offline)
  {
    hide LookAnswer, SerializedAnswer, SeatGrants, ShownAt, Entered;
    var s := Entered(run.first);
    if OfflineAuthorized(s) || (s.sessionPolicyKnown && !s.sessionRequired) {
      LooksAreBacked(run.first, feature);
    } else {
      SerializedIsBacked(GenerationOf(run.look).value, true, run.begin, run.trip, run.end, feature);
    }
  }

  /** Every success is a usable snapshot that enables the feature, by authority that one of this very call's sections
      held and that had not expired at the clock reading of that section. */
  lemma RequiredAccessIsBacked(run: RequireRun, feature: Text)
    requires RequireAnswer(run, feature).Ok?
    ensures var snapshot := RequireAnswer(run, feature).value;
            && snapshot.HasFeature(feature) && (snapshot.access == Online || snapshot.access == Offline)
            && RequireGrants(run, snapshot, feature) && !run.cancelled
  {
    hide LookAnswer, StartSessionAnswer, SessionGrants, ShownAt, Again, LookState;
    var snapshot := LookAnswer(run.first).value;
    var second := Again(run.first, run.second);
    if snapshot.HasFeature(feature) { LooksAreBacked(run.first, feature); }
    if LookAnswer(second).Ok? && LookAnswer(second).value.HasFeature(feature) { LooksAreBacked(second, feature); }
    if LookAnswer(run.last).Ok? && LookAnswer(run.last).value.HasFeature(feature) { LooksAreBacked(run.last, feature); }
    if StartSessionAnswer(run.seat).Ok? && StartSessionAnswer(run.seat).value.HasFeature(feature) {
      SessionIsBacked(run.seat, feature);
    }
  }

  lemma AcceptedIsBacked(generation: nat, purpose: Fence.Purpose, found: Found, reply: Reply, again: Fault,
      feature: Text)
    requires var r := AcceptAnswer(generation, purpose, found, reply, again); r.Ok? && r.value.HasFeature(feature)
    ensures AcceptGrants(generation, purpose, found, reply,
        AcceptAnswer(generation, purpose, found, reply, again).value, feature)
  {
    var s := Entered(found);
    if reply.Good? {
      SnapshotsAreBacked(Installed(s, reply.verified, if purpose.Validation? then Some(purpose.previous) else None),
          found.sample, feature);
    }
    if reply.Unavailable? { SnapshotsAreBacked(AfterOutage(s, reply.verifying), found.sample, feature); }
    hide Backed, SnapshotLocked, SaveAt, InvalidateStore, Installed, AfterOutage, Entered;
  }

  lemma ActivatedIsBacked(run: ActivateRun, feature: Text)
    requires ActivateAnswer(run).Ok? && ActivateAnswer(run).value.HasFeature(feature)
    ensures ActivateGrants(run, ActivateAnswer(run).value, feature)
  {
    hide AcceptAnswer, SerializedAnswer, SeatGrants, AcceptGrants, LockFailure, EnterFailure;
    var begun := GenerationOf(run.look).value + 1;
    if AcceptAnswer(begun, Fence.Activation, run.accepted, run.reply, run.again).Ok? {
      if run.after.state.sessionRequired && !run.after.state.sessionDisabled {
        SerializedIsBacked(run.after.state.generation, false, run.seat, run.trip, run.end, feature);
      } else {
        AcceptedIsBacked(begun, Fence.Activation, run.accepted, run.reply, run.again, feature);
      }
    }
  }

  /** The same for EnsureAccess, by RequireAccess or by the activation that the key made. */
  lemma EnsuredAccessIsBacked(
    run: RequireRun, feature: Text, prompt: Option<Result<Text, Failure>>, activation: ActivateRun, cancelled: bool)
    requires EnsureAnswer(run, feature, prompt, activation, cancelled).Ok?
    ensures var snapshot := EnsureAnswer(run, feature, prompt, activation, cancelled).value;
            && snapshot.HasFeature(feature) && (snapshot.access == Online || snapshot.access == Offline)
            && (if Asks(run, feature, prompt) then ActivateGrants(activation, snapshot, feature)
                else RequireGrants(run, snapshot, feature))
  {
    hide RequireAnswer, ActivateAnswer, RequireGrants, ActivateGrants;
    if Asks(run, feature, prompt) {
      ActivatedIsBacked(activation, feature);
    } else {
      RequiredAccessIsBacked(run, feature);
    }
  }
}
