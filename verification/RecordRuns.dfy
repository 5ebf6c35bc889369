/** Whole lives of an installed record: transitions, failed replacements, crashes and restarts
    (sdk/go/installed_storage.go, sdk/go/installed.go, sdk/go/access.go). What the medium holds after a replacement that
    reported no success is arbitrary among the outcomes module FileReplace allows. */
module RecordRuns {
  import opened Common
  import opened Text
  import opened Storage
  import opened Clock
  import opened Access
  import opened InstalledRecord

  datatype Medium = Holds(record: Record) | Unusable

  /** What an unsuccessful replacement leaves behind. */
  datatype Fate = OldStays | NewArrived | Broken

  /** The transitions the installed client makes. */
  datatype Op =
    | Begin(principal: Principal, customerGiven: bool, customerOpaque: bool, digest: Text, operation: Text, newID: Text,
        now: int)
    | Commit(version: nat, credential: StoredCredential, access: CachedAccess)
    | CommitCredential(version: nat, credential: StoredCredential)
    | Invalidate(clearPending: bool, clearCredential: bool)
    | DropCache
    | Checkpoint(server: int, wall: int)
    | SaveOffline(version: nat, offline: OfflineRecord)
    | CheckpointOffline(offline: OfflineRecord)
    | Rebind(fingerprint: Option<Text>, provider: Option<Text>, newID: Text)

  datatype Event =
    | Boot                               // read and decode what the medium holds
    | Do(op: Op, io: IO, fate: Fate)
    | Stop                               // a crash, or an orderly end

  /** An activation request that left, and what the medium held when it did. */
  datatype Sent = Sent(operationID: Text, digest: Text, epoch: nat, medium: Medium)

  /** An offline file that was recorded as authorised. */
  datatype Authorised = Authorised(binding: nat, sequence: int, issuanceID: Text, contentDigest: Text)

  /** epoch counts how often a pending activation has been cleared from the medium, binding how often the record has
      been bound to a new machine identity. */
  datatype Device = Device(
    scope: Scope, provider: Text, medium: Medium, live: Option<Held>,
    sent: seq<Sent>, epoch: nat, authorised: seq<Authorised>, binding: nat)

  function EditFor(r: Record, op: Op): Edit {
    match op
    case Begin(principal, customerGiven, customerOpaque, digest, operation, newID, now) =>
      BeginEdit(r, principal, customerGiven, customerOpaque, digest, operation, newID, now).0
    case Commit(version, c, access) => CommitEdit(r, version, c, access)
    case CommitCredential(version, c) => CommitCredentialEdit(r, version, c)
    case Invalidate(clearPending, clearCredential) => InvalidateEdit(r, clearPending, clearCredential)
    case DropCache => DropCacheEdit(r)
    case Checkpoint(server, wall) => CheckpointEdit(r, server, wall)
    case SaveOffline(version, o) => SaveOfflineEdit(r, version, o)
    case CheckpointOffline(o) => CheckpointOfflineEdit(r, o)
    case Rebind(fingerprint, provider, newID) => RebindEdit(r, fingerprint, provider, newID)
  }

  /** The operation ID a begin sends once it has succeeded. */
  function OperationSent(r: Record, op: Op): Text
    requires op.Begin?
  {
    BeginEdit(r, op.principal, op.customerGiven, op.customerOpaque, op.digest, op.operation, op.newID, op.now).1
  }

  function Stamped(r: Record): Record { r.(format := FormatOf(r)) }

  function Landed(medium: Medium, r: Record, io: IO, fate: Fate): Medium {
    if io.writes || fate.NewArrived? then Holds(Stamped(r)) else if fate.OldStays? then medium else Unusable
  }

  function PendingOf(m: Medium): Option<Pending> { if m.Holds? then m.record.pending else None }

  /** A transition of the live storage object: the medium changes only if the object reaches the files. */
  function Edited(d: Device, op: Op, io: IO, fate: Fate): Device
    requires d.live.Some?
  {
    var held := d.live.value;
    var edit := EditFor(held.record, op);
    var (after, failure) := Apply(held, edit, io);
    var reached := edit.Put? && InstalledRecord.Answers(held, io) && io.fits;
    var medium := if reached then Landed(d.medium, edit.record, io, fate) else d.medium;
    var landed := reached && medium == Holds(Stamped(edit.record)) && (io.writes || fate.NewArrived?);
    var epoch := if PendingOf(d.medium).Some? && PendingOf(medium).None? then d.epoch + 1 else d.epoch;
    d.(medium := medium, live := Some(after), epoch := epoch,
       sent := if op.Begin? && failure.None? then
                 d.sent + [Sent(OperationSent(held.record, op), op.digest, epoch, medium)]
               else d.sent,
       binding := if op.Rebind? && landed then d.binding + 1 else d.binding,
       authorised := if op.SaveOffline? && landed then
                       d.authorised + [Authorised(d.binding, op.offline.sequence, op.offline.issuanceID,
                           op.offline.contentDigest)]
                     else d.authorised)
  }

  ghost function Step(d: Device, e: Event): Device {
    match e
    case Boot =>
      if d.live.None? && d.medium.Holds? && Decodable(d.medium.record, d.scope, d.provider) then
        d.(live := Some(Held(d.medium.record, false, false)))
      else d
    case Do(op, io, fate) => if d.live.None? then d else Edited(d, op, io, fate)
    case Stop => d.(live := None)
  }

  ghost function Run(d: Device, events: seq<Event>): Device
    decreases |events|
  {
    if events == [] then d else Run(Step(d, events[0]), events[1..])
  }

  /** A new installation's record, just written. */
  function Created(scope: Scope, provider: Text, installation: Identity): Device {
    var r := Record(2, provider, scope, installation, 0, None, None, None, None);
    Device(scope, provider, Holds(r), Some(Held(r, false, false)), [], 0, [], 0)
  }

  // ----- One mode at a time -----

  function Count(b: bool): nat { if b then 1 else 0 }

  predicate HasToken(r: Record) { r.offline.Some? && r.offline.value.jws.Some? }

  /** At most one of credential, pending activation and offline token; cached access only with a credential. */
  predicate Exclusive(r: Record) {
    && Count(r.credential.Some?) + Count(r.pending.Some?) + Count(HasToken(r)) <= 1
    && (r.access.Some? ==> r.credential.Some?)
  }

  /** Every transition, from an exclusive record, gives an exclusive record of the same or a later generation. */
  lemma EditsStayExclusive(r: Record, op: Op)
    requires Exclusive(r) && EditFor(r, op).Put?
    ensures var t := EditFor(r, op).record;
            Exclusive(t) && t.generation >= r.generation && t.scope == r.scope && t.provider == r.provider
  {}

  /** The interface's Save, which the installed client never calls, keeps this exactly when nothing is pending. */
  lemma SaveIsExclusiveIffNothingPending(r: Record, c: StoredCredential)
    requires Exclusive(r)
    ensures SaveEdit(r, r.generation, c).Put?
    ensures Exclusive(SaveEdit(r, r.generation, c).record) <==> r.pending.None?
  {}

  /** No transition but a commit leaves cached access that was not there, and whatever ends a mode ends it completely; the
      offline sequence and marks outlive every clearing of authority. */
  lemma ClearingIsComplete(r: Record, op: Op)
    requires Exclusive(r) && EditFor(r, op).Put?
    ensures var t := EditFor(r, op).record;
            && (op.Begin? || op.SaveOffline? || op.Rebind? ==> t.credential.None? && t.access.None?)
            && (op.Begin? || op.Commit? || op.CommitCredential? || op.Invalidate? || op.Rebind? ==> !HasToken(t))
            && (op.Commit? || op.CommitCredential? || op.SaveOffline? || op.Rebind? ==> t.pending.None?)
            && (op.Invalidate? ==>
                  && t.access.None? && t.generation == r.generation + 1
                  && t.credential == (if op.clearCredential then None else r.credential)
                  && t.pending == (if op.clearPending then None else r.pending))
            && (op.DropCache? ==> t == r.(access := None))
            && (t.access.Some? && !op.Commit? ==> op.Checkpoint? && r.access.Some?)
            && (!op.Rebind? && !op.SaveOffline? && !op.CheckpointOffline? && r.offline.Some? ==>
                  t.offline.Some? && t.offline.value.(jws := None) == r.offline.value.(jws := None))
  {}

  /** What a commit writes for its scope and installation is the credential that is loaded back. */
  lemma CommittedCredentialIsLoaded(r: Record, c: StoredCredential, access: CachedAccess)
    requires c.applicationID == r.scope.applicationID && c.environmentID == r.scope.environmentID
        && c.installationID == r.installation.id
    ensures CommitEdit(r, r.generation, c, access).Put?
        && StoredCredentialOf(CommitEdit(r, r.generation, c, access).record) == Some(c)
    ensures CommitCredentialEdit(r, r.generation, c).Put?
        && StoredCredentialOf(CommitCredentialEdit(r, r.generation, c).record) == Some(c)
  {}

  // ----- What is written can be read again -----

  /** What a transition must be given so that the record it writes is accepted when it is read. */
  ghost predicate InRange(r: Record, op: Op) {
    match op
    case Begin(principal, _, _, digest, operation, newID, now) =>
      r.pending.Some? || ReadablePending(Pending(if operation == [] then newID else operation, principal, digest, now))
    case Commit(_, c, access) =>
      ReadableCredential(InstalledCredentialFrom(c)) && ValidBinding(c.fingerprint, c.fingerprintProvider)
          && ReadableAccess(access)
    case CommitCredential(_, c) => ReadableCredential(InstalledCredentialFrom(c))
        && ValidBinding(c.fingerprint, c.fingerprintProvider)
    case SaveOffline(_, o) => ReadableOffline(o)
    case CheckpointOffline(o) => o.timeHighWater <= LAST_SECOND && o.wallHighWater <= LAST_SECOND
    case Rebind(fingerprint, provider, newID) => ReadableIdentity(Identity(newID, fingerprint, provider))
    case _ => true
  }

  /** The condition is exact: from a readable record, what is written is readable if and only if the inputs are in range. */
  lemma WrittenIsReadableIff(r: Record, op: Op, scope: Scope, provider: Text)
    requires Decodable(r, scope, provider) && Exclusive(r) && EditFor(r, op).Put?
    ensures Decodable(Stamped(EditFor(r, op).record), scope, provider) <==> InRange(r, op)
  {
    hide ValidOperationID, LowerHex, ValidBinding, AsciiToken;
  }

  /** A record committed with a licence ID of one space is refused when it is next read. Module CachedGrant shows that
      grant verification lets such a subject through. */
  lemma OddSubjectIsUnreadable(r: Record, c: StoredCredential, access: CachedAccess, scope: Scope, provider: Text)
    requires Decodable(r, scope, provider) && Exclusive(r) && c.licenceID == [32]
    ensures CommitEdit(r, r.generation, c, access).Put?
    ensures !Decodable(Stamped(CommitEdit(r, r.generation, c, access).record), scope, provider)
  {
    assert !TokenByte(c.licenceID[0]);
  }

  // ----- What every step keeps -----

  ghost predicate SentInOrder(d: Device) {
    && (forall k :: 0 <= k < |d.sent| ==> d.sent[k].epoch <= d.epoch && Durable(d.sent[k]))
    && (forall k :: 0 <= k < |d.sent| && d.sent[k].epoch == d.epoch && d.medium.Holds? ==>
          Promises(d.medium, d.sent[k]))
    && (forall j, k :: 0 <= j < k < |d.sent| && d.sent[j].epoch == d.sent[k].epoch ==>
          SameRequest(d.sent[j], d.sent[k]))
  }

  /** The medium holds the pending activation this request belongs to. */
  predicate Promises(m: Medium, s: Sent) {
    && PendingOf(m).Some? && PendingOf(m).value.operationID == s.operationID
        && PendingOf(m).value.inputDigest == s.digest
  }

  predicate Durable(s: Sent) { Promises(s.medium, s) }

  predicate SameRequest(a: Sent, b: Sent) { a.operationID == b.operationID && a.digest == b.digest }

  /** b was authorised no earlier than a under the same binding. */
  predicate NoRollback(a: Authorised, b: Authorised) {
    a.binding == b.binding ==>
      && a.sequence <= b.sequence
      && (a.sequence == b.sequence ==> a.issuanceID == b.issuanceID && a.contentDigest == b.contentDigest)
  }

  predicate Covers(r: Record, binding: nat, a: Authorised) {
    a.binding == binding ==>
      && r.offline.Some?
      && NoRollback(a, Authorised(binding, r.offline.value.sequence, r.offline.value.issuanceID,
          r.offline.value.contentDigest))
  }

  ghost predicate AuthorisedInOrder(d: Device) {
    && (forall k :: 0 <= k < |d.authorised| ==>
          d.authorised[k].binding <= d.binding && (d.medium.Holds? ==>
              Covers(d.medium.record, d.binding, d.authorised[k])))
    && (forall j, k :: 0 <= j < k < |d.authorised| ==> NoRollback(d.authorised[j], d.authorised[k]))
  }

  ghost predicate Inv(d: Device) {
    && (d.medium.Holds? ==> Exclusive(d.medium.record))
    && (d.live.Some? && !d.live.value.poisoned && !d.live.value.closed ==> d.medium == Holds(d.live.value.record))
    && SentInOrder(d) && AuthorisedInOrder(d)
  }

  /** The medium has not gone back. */
  predicate Later(a: Medium, b: Medium) {
    && (a.Unusable? ==> b.Unusable?)
    && (a.Holds? && b.Holds? ==> a.record.generation <= b.record.generation)
  }

  /** From the record that is on the medium, what a transition does to the pending activation and to the offline record. */
  lemma EditsKeepPromises(r: Record, op: Op)
    requires EditFor(r, op).Put?
    ensures var t := EditFor(r, op).record;
            && (op.Begin? ==>
                  && t.pending.Some? && t.pending.value.inputDigest == op.digest && (r.pending.Some? ==>
                        t.pending == r.pending)
                  && t.pending.value.operationID == OperationSent(r, op))
            && (!op.Begin? ==> t.pending == r.pending || t.pending.None?)
  {}

  /** Nothing ever replaces a pending activation on the medium: every step keeps it as it is, or clears it and so begins
      the next epoch; and nothing else begins one. */
  lemma PendingStaysUntilCleared(d: Device, e: Event)
    requires Inv(d)
    ensures var n := Step(d, e);
            && (PendingOf(d.medium).Some? ==>
                  || (PendingOf(n.medium) == PendingOf(d.medium) && n.epoch == d.epoch)
                  || (PendingOf(n.medium).None? && n.epoch == d.epoch + 1))
            && (PendingOf(d.medium).None? ==> n.epoch == d.epoch)
  {
    if e.Do? && d.live.Some? {
      var r := d.live.value.record;
      if EditFor(r, e.op).Put? { EditsKeepPromises(r, e.op); }
      hide EditFor, BeginEdit, OperationSent, SentInOrder, AuthorisedInOrder, Exclusive;
    }
  }

  lemma EditsKeepOffline(r: Record, op: Op, binding: nat, a: Authorised)
    requires EditFor(r, op).Put? && Covers(r, binding, a) && a.binding <= binding
    ensures var t := EditFor(r, op).record;
            && (!op.Rebind? ==> Covers(Stamped(t), binding, a))
            && (op.SaveOffline? ==> NoRollback(a, Authorised(binding, op.offline.sequence, op.offline.issuanceID, op.offline.contentDigest)))
            && (op.Rebind? ==> Covers(Stamped(t), binding + 1, a))
  {}

  /** A transition sends at most one request, for the pending activation it has just written. */
  lemma EditedSends(d: Device, op: Op, io: IO, fate: Fate)
    requires Inv(d) && d.live.Some?
    ensures var n := Edited(d, op, io, fate);
            && d.epoch <= n.epoch && (d.medium.Unusable? ==> n.medium.Unusable?)
            && (n.medium.Holds? && n.epoch == d.epoch && PendingOf(d.medium).Some? ==>
                  PendingOf(n.medium) == PendingOf(d.medium))
            && (n.sent == d.sent
                || (|n.sent| == |d.sent| + 1 && n.sent[..|d.sent|] == d.sent && n.sent[|d.sent|].epoch == n.epoch
                    && n.sent[|d.sent|].medium == n.medium && Promises(n.medium, n.sent[|d.sent|])))
  {
    var held := d.live.value;
    if EditFor(held.record, op).Put? { EditsKeepPromises(held.record, op); }
    hide EditFor, BeginEdit, OperationSent, SentInOrder, AuthorisedInOrder, Exclusive, FormatOf;
  }

  lemma SentStaysInOrder(d: Device, op: Op, io: IO, fate: Fate)
    requires Inv(d) && d.live.Some?
    ensures SentInOrder(Edited(d, op, io, fate))
  {
    EditedSends(d, op, io, fate);
    var n := Edited(d, op, io, fate);
    assert forall k :: 0 <= k < |d.sent| ==> n.sent[k] == d.sent[k] by {
      forall k | 0 <= k < |d.sent| ensures n.sent[k] == d.sent[k] { assert n.sent[..|d.sent|][k] == d.sent[k]; }
      hide *;
    }
    hide Edited, AuthorisedInOrder, Exclusive;
  }

  lemma AuthorisedStaysInOrder(d: Device, op: Op, io: IO, fate: Fate)
    requires Inv(d) && d.live.Some?
    ensures AuthorisedInOrder(Edited(d, op, io, fate))
  {
    var held := d.live.value;
    var edit := EditFor(held.record, op);
    if edit.Put? && InstalledRecord.Answers(held, io) {
      forall k | 0 <= k < |d.authorised|
        ensures !op.Rebind? ==> Covers(Stamped(edit.record), d.binding, d.authorised[k])
        ensures op.Rebind? ==> Covers(Stamped(edit.record), d.binding + 1, d.authorised[k])
        ensures op.SaveOffline? ==> NoRollback(d.authorised[k], Authorised(d.binding, op.offline.sequence, op.offline.issuanceID, op.offline.contentDigest))
      {
        EditsKeepOffline(held.record, op, d.binding, d.authorised[k]);
      }
      if op.SaveOffline? { assert edit.record.offline == Some(op.offline); }
    }
    hide EditFor, BeginEdit;
  }

  lemma StepKeeps(d: Device, e: Event)
    requires Inv(d)
    ensures Inv(Step(d, e)) && Later(d.medium, Step(d, e).medium)
  {
    if e.Do? && d.live.Some? {
      SentStaysInOrder(d, e.op, e.io, e.fate);
      AuthorisedStaysInOrder(d, e.op, e.io, e.fate);
      if d.medium.Holds? && EditFor(d.medium.record, e.op).Put? { EditsStayExclusive(d.medium.record, e.op); }
      hide EditFor, BeginEdit, SentInOrder, AuthorisedInOrder;
    }
  }

  predicate EditFails(d: Device, op: Op, io: IO)
    requires d.live.Some?
  {
    Apply(d.live.value, EditFor(d.live.value.record, op), io).1.Some?
  }

  /** The medium after a transition is the old one, unusable, or holds the edited record. */
  predicate Lands(d: Device, op: Op, after: Medium)
    requires d.live.Some?
  {
    var edit := EditFor(d.live.value.record, op);
    after == d.medium || after == Unusable
        || (edit.Put? && after == Holds(Stamped(edit.record)) && d.medium == Holds(d.live.value.record))
  }

  lemma EditedLands(d: Device, op: Op, io: IO, fate: Fate)
    requires Inv(d) && d.live.Some?
    ensures var e := Edited(d, op, io, fate); Inv(e) && e.live.Some? && Lands(d, op, e.medium)
    ensures !EditFails(d, op, io) ==>
              && Edited(d, op, io, fate).medium == Holds(Edited(d, op, io, fate).live.value.record)
              && (EditFor(d.live.value.record, op).Put? ==>
                    Edited(d, op, io, fate).medium == Holds(Stamped(EditFor(d.live.value.record, op).record)))
              && (EditFor(d.live.value.record, op).Check? ==> Edited(d, op, io, fate).medium == d.medium)
  {
    StepKeeps(d, Do(op, io, fate));
    hide EditFor, BeginEdit, SentInOrder, AuthorisedInOrder, Exclusive;
  }

  lemma {:induction false} RunKeeps(d: Device, events: seq<Event>)
    requires Inv(d)
    ensures Inv(Run(d, events)) && Later(d.medium, Run(d, events).medium)
    decreases |events|
  {
    if events != [] {
      StepKeeps(d, events[0]);
      RunKeeps(Step(d, events[0]), events[1..]);
    }
  }

  // ----- The results -----

  /** Over every run of a new installation, crashes and failed replacements included: at most one of credential, pending
      activation and offline token is on the medium, cached access only with a credential, the generation never falls,
      and scope and provider never change. */
  lemma OneModeAtATime(scope: Scope, provider: Text, installation: Identity, before: seq<Event>, after: seq<Event>)
    ensures var d := Run(Created(scope, provider, installation), before);
            && (d.medium.Holds? ==> Exclusive(d.medium.record))
            && Later(d.medium, Run(d, after).medium)
  {
    var start := Created(scope, provider, installation);
    RunKeeps(start, before);
    RunKeeps(Run(start, before), after);
  }

  ghost predicate Readable(d: Device) { d.medium.Holds? ==> Decodable(d.medium.record, d.scope, d.provider) }

  /** Every transition of the run is given clock readings and verified values in range. */
  ghost predicate AllInRange(d: Device, events: seq<Event>)
    decreases |events|
  {
    events != [] ==>
      && (events[0].Do? && d.live.Some? ==> InRange(d.live.value.record, events[0].op))
      && AllInRange(Step(d, events[0]), events[1..])
  }

  lemma StepStaysReadable(d: Device, e: Event)
    requires Inv(d) && Readable(d) && (e.Do? && d.live.Some? ==> InRange(d.live.value.record, e.op))
    ensures Readable(Step(d, e))
  {
    if e.Do? && d.live.Some? && InstalledRecord.Answers(d.live.value, e.io) && EditFor(d.live.value.record, e.op).Put? {
      WrittenIsReadableIff(d.live.value.record, e.op, d.scope, d.provider);
    }
    hide EditFor, BeginEdit, InRange, SentInOrder, AuthorisedInOrder, Decodable, Exclusive;
  }

  /** Under those conditions the medium, unless a replacement broke it, can always be read again. */
  lemma {:induction false} RecordStaysReadable(d: Device, events: seq<Event>)
    requires Inv(d) && Readable(d) && AllInRange(d, events)
    ensures Readable(Run(d, events))
    decreases |events|
  {
    if events != [] {
      StepKeeps(d, events[0]);
      StepStaysReadable(d, events[0]);
      RecordStaysReadable(Step(d, events[0]), events[1..]);
    }
  }

  lemma NewInstallationIsReadable(scope: Scope, provider: Text, installation: Identity)
    requires ReadableIdentity(installation)
    ensures Inv(Created(scope, provider, installation)) && Readable(Created(scope, provider, installation))
  {}

  /** Files authorised one after the other under one binding never go back in sequence, and equal sequences are the same
      issue with the same claims, even when authority was cleared in between. */
  lemma OfflineFilesNeverRollBack(scope: Scope, provider: Text, installation: Identity, events: seq<Event>)
    ensures var d := Run(Created(scope, provider, installation), events);
            forall j, k :: 0 <= j < k < |d.authorised| && d.authorised[j].binding == d.authorised[k].binding ==>
              && d.authorised[j].sequence <= d.authorised[k].sequence
              && (d.authorised[j].sequence == d.authorised[k].sequence ==>
                    d.authorised[j].issuanceID == d.authorised[k].issuanceID
                        && d.authorised[j].contentDigest == d.authorised[k].contentDigest)
  {
    var start := Created(scope, provider, installation);
    RunKeeps(start, events);
    var d := Run(start, events);
    forall j, k | 0 <= j < k < |d.authorised| ensures NoRollback(d.authorised[j], d.authorised[k]) {}
  }

  /** Until the pending activation is cleared from the medium, every request for it carries the same operation ID and the
      same input digest, over any number of lost replies, retries, failed writes and restarts; and each request left
      only after the medium held that pending activation. */
  lemma ActivationRequestsRepeat(scope: Scope, provider: Text, installation: Identity, events: seq<Event>)
    ensures var d := Run(Created(scope, provider, installation), events);
            && (forall j, k :: 0 <= j < k < |d.sent| && d.sent[j].epoch == d.sent[k].epoch ==>
                  d.sent[j].operationID == d.sent[k].operationID && d.sent[j].digest == d.sent[k].digest)
            && (forall k :: 0 <= k < |d.sent| ==> Durable(d.sent[k]))
  {
    var start := Created(scope, provider, installation);
    RunKeeps(start, events);
    var d := Run(start, events);
    forall j, k | 0 <= j < k < |d.sent| && d.sent[j].epoch == d.sent[k].epoch ensures SameRequest(d.sent[j],
        d.sent[k]) {}
  }

  /** A begin on a pending record succeeds exactly for the same input and principal, no other operation ID, and an age
      below 86400 seconds; and then it sends the operation ID of the pending record, which stays as it is. */
  lemma RetryGoesThroughIff(r: Record, op: Op)
    requires op.Begin? && r.pending.Some? && r.generation < MAX_INT64
    requires !(op.principal == ByAccount && !op.customerOpaque) && !(op.principal == ByKey && op.customerGiven)
    ensures EditFor(r, op).Put? <==>
              && op.now >= 0 && 0 <= op.now - r.pending.value.createdAt < DAY
              && op.digest == r.pending.value.inputDigest && op.principal == r.pending.value.principal
              && op.operation in {[], r.pending.value.operationID}
    ensures EditFor(r, op).Put? ==>
        EditFor(r, op).record.pending == r.pending && OperationSent(r, op) == r.pending.value.operationID
  {}
}
