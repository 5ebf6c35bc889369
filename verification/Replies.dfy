/** What each kind of reply does to the state and to storage (sdk/go/access.go), in one client's section, in a step of
    many interleaved clients, and, for a dead credential, for every later run. */
module Replies {
  import opened Common
  import opened Text
  import opened Storage
  import opened Clock
  import opened Access
  import opened Decisions
  import opened Owed
  import Fence

  // ----- The fields after each reply -----

  /** Nothing is left that could grant anything, and every request in flight is of an earlier generation. */
  predicate Emptied(s: AccessState, t: AccessState) {
    && t.generation == s.generation + 1
    && t.claims.None? && t.anchor.None? && t.session.None? && t.pendingSessionID.None? && !OfflineAuthorized(t)
    && !t.sessionRequired && !t.sessionPolicyKnown && !t.sessionDisabled && t.sessionLicenceExpiresAt.None?
    && !t.transient && t.failure.None? && !t.unsupported
  }

  /** A denial that ends the credential, or a reply that cannot be trusted. */
  predicate Ends(s: AccessState, store: Store, fault: Fault, t: AccessState, after: Store) {
    && Emptied(s, t) && t.credential.None? && !t.account
    && (if TakesInvalidation(store, fault) then
          && after == store.(version := store.version + 1, credential := None) && t.storageVersion == after.version
        else
          && after == (if store.kind == InMemory then store.(credential := None) else store.(poisoned := true))
          && t.storageVersion == s.storageVersion)
  }

  /** Storage takes the invalidation and then, at the new version, the credential that is kept. */
  predicate TakesWithholding(s: AccessState, store: Store, fault: Fault, again: Fault) {
    && TakesInvalidation(store, fault)
    && (s.credential.Some? ==> store.kind == InMemory || (!again.readFails && !again.writeFails))
  }

  /** A denial that keeps the credential, in memory and in storage, at a version that no earlier request was built at. */
  predicate Withholds(s: AccessState, store: Store, fault: Fault, again: Fault, t: AccessState, after: Store) {
    && Emptied(s, t)
    && (if TakesWithholding(s, store, fault, again) then
          && t.credential == s.credential && t.account == s.account
          && after == store.(version := store.version + 1, credential := s.credential)
          && t.storageVersion == after.version
        else
          && t.credential.None? && !t.account && t.storageVersion == s.storageVersion
          && after == (if TakesInvalidation(store, fault) then
                         store.(version := store.version + 1, credential := None, poisoned := true)
                       else if store.kind == InMemory then store.(credential := None)
                       else store.(poisoned := true)))
  }

  /** A version of the application that is no longer served: the activation stays, what it granted does not. */
  predicate Outdates(s: AccessState, t: AccessState) {
    && t.generation == s.generation + 1 && t.unsupported
    && t == s.(generation := t.generation, claims := None, anchor := None, transient := false, session := None,
               pendingSessionID := None, failure := None, unsupported := true)
  }

  /** An outage only marks the state; a reply that could not be verified also gives the claims up. */
  predicate Bridges(s: AccessState, verifying: bool, t: AccessState) {
    && t.credential == s.credential && t.account == s.account && t.storageVersion == s.storageVersion
    && t.anchor == s.anchor && t.transient && t.failure == Some(TransientError) && t.unsupported == s.unsupported
    && t.sessionRequired == s.sessionRequired && t.sessionDisabled == s.sessionDisabled
    && t.pendingSessionID == s.pendingSessionID && OfflineAuthorized(t) == OfflineAuthorized(s)
    && (if verifying then t.generation == s.generation + 1 && t.claims.None?
        else t.generation == s.generation && t.claims == s.claims)
  }

  /** A verified reply becomes the client's authority; a seat stays only with the activation it was taken for. */
  predicate Installs(s: AccessState, v: Verified, previous: Option<StoredCredential>, t: AccessState) {
    && t.generation == s.generation && t.storageVersion == s.storageVersion && t.account == s.account
    && t.credential == Some(v.saved) && t.claims == v.claims && t.anchor == v.anchor
    && t.sessionRequired == v.floating && t.sessionPolicyKnown && t.sessionLicenceExpiresAt == v.licenceExpiresAt
    && t.sessionDisabled == (v.floating && s.sessionDisabled)
    && !t.transient && t.failure.None? && !t.unsupported && OfflineAuthorized(t) == OfflineAuthorized(s)
    && t.pendingSessionID == (if KeepsSeat(s, v, previous) then s.pendingSessionID else None)
    && (t.session.None? || (KeepsSeat(s, v, previous) && t.session == s.session))
  }

  predicate KeepsSeat(s: AccessState, v: Verified, previous: Option<StoredCredential>) {
    && v.floating && s.sessionRequired && previous.Some?
    && previous.value.activationID == v.saved.activationID && previous.value.licenceID == v.saved.licenceID
    && previous.value.installationID == v.saved.installationID
  }

  function Previous(purpose: Fence.Purpose): Option<StoredCredential> {
    if purpose.Validation? then Some(purpose.previous) else None
  }

  /** What a reply of each kind does to the state and to storage. */
  predicate Does(s: AccessState, store: Store, purpose: Fence.Purpose, reply: Reply, fault: Fault, again: Fault,
      t: AccessState, after: Store) {
    match reply
    case Good(v) =>
      if TakesSave(store, s.storageVersion, fault) then
        Installs(s, v, Previous(purpose), t) && after == store.(credential := Some(v.saved))
      else
        && Emptied(s, t) && t.credential.None? && !t.account && t.storageVersion == s.storageVersion
        && after.version == store.version && after.credential == store.credential
    case Unavailable(verifying) => Bridges(s, verifying, t) && after == store
    case Unsupported =>
      if purpose.Validation? then Outdates(s, t) && after == store else Withholds(s, store, fault, again, t, after)
    case Abandoned => t == s && after == store
    case Withheld => Withholds(s, store, fault, again, t, after)
    case Dead => Ends(s, store, fault, t, after)
    case Unacceptable => Ends(s, store, fault, t, after)
  }

  lemma ClearingEmpties(s: AccessState)
    ensures Emptied(s, ClearState(s)) && ClearState(s).credential.None? && !ClearState(s).account
    ensures ClearState(s).storageVersion == s.storageVersion
  {}

  lemma LooksKeepFields(s: AccessState, sample: Sample)
    ensures var t := SnapshotLocked(s, sample).0;
            && OfflineAuthorized(t) == OfflineAuthorized(s) && (t.session == s.session || t.session.None?)
            && t.(session := s.session, offline := s.offline) == s
  {
    SeatLookOnlyDrops(s, sample);
    hide NowWithWall, SessionSnapshot, SnapshotAt, OfflineSnapshot, OfflineNow;
  }

  lemma GoodDoes(store: Store, s: AccessState, purpose: Fence.Purpose, reply: Reply, fault: Fault, again: Fault,
      sample: Sample)
    requires reply.Good?
    ensures var e := AcceptEffect(store, s, purpose, reply, fault, again, sample);
            Does(s, store, purpose, reply, fault, again, e.party.state, e.store) && (e.shown.Some? <==> e.taken.Some?)
  {
    SaveIsFenced(store, s.storageVersion, reply.verified.saved, fault);
    ClearingEmpties(s);
    LooksKeepFields(Installed(s, reply.verified, Previous(purpose)), sample);
    hide SnapshotLocked, SaveAt, TakesSave, ClearState, Emptied, OfflineAuthorized;
  }

  lemma OutageDoes(store: Store, s: AccessState, purpose: Fence.Purpose, reply: Reply, fault: Fault, again: Fault,
      sample: Sample)
    requires reply.Unavailable?
    ensures var e := AcceptEffect(store, s, purpose, reply, fault, again, sample);
            Does(s, store, purpose, reply, fault, again, e.party.state, e.store)
  {
    LooksKeepFields(AfterOutage(s, reply.verifying), sample);
    hide SnapshotLocked, OfflineAuthorized;
  }

  lemma WithholdingDoes(store: Store, s: AccessState, purpose: Fence.Purpose, reply: Reply, fault: Fault, again: Fault,
      sample: Sample)
    requires reply.Withheld? || (reply.Unsupported? && !purpose.Validation?)
    ensures var e := AcceptEffect(store, s, purpose, reply, fault, again, sample);
            Withholds(s, store, fault, again, e.party.state, e.store) && e.shown.None? && e.taken.None?
  {
    ClearingEmpties(s);
    InvalidationAdvances(store, fault);
    var after := InvalidateStore(store, fault).0;
    if s.credential.Some? { SaveIsFenced(after, after.version, s.credential.value, again); }
    hide ClearState, InvalidateStore, SaveAt;
  }

  lemma EndingDoes(store: Store, s: AccessState, purpose: Fence.Purpose, reply: Reply, fault: Fault, again: Fault,
      sample: Sample)
    requires reply.Dead? || reply.Unacceptable?
    ensures var e := AcceptEffect(store, s, purpose, reply, fault, again, sample);
            Ends(s, store, fault, e.party.state, e.store) && e.shown.None? && e.taken.None?
  {
    ClearingEmpties(s);
    hide ClearState;
  }

  /** In a client's own section, with both storage operations one after the other. */
  lemma RepliesDo(store: Store, s: AccessState, purpose: Fence.Purpose, reply: Reply, fault: Fault, again: Fault,
      sample: Sample)
    ensures var e := AcceptEffect(store, s, purpose, reply, fault, again, sample);
            Does(s, store, purpose, reply, fault, again, e.party.state, e.store)
  {
    match reply
    case Good(_) => GoodDoes(store, s, purpose, reply, fault, again, sample);
    case Unavailable(_) => OutageDoes(store, s, purpose, reply, fault, again, sample);
    case Withheld => WithholdingDoes(store, s, purpose, reply, fault, again, sample);
    case Dead => EndingDoes(store, s, purpose, reply, fault, again, sample);
    case Unacceptable => EndingDoes(store, s, purpose, reply, fault, again, sample);
    case Abandoned =>
    case Unsupported =>
      if !purpose.Validation? { WithholdingDoes(store, s, purpose, reply, fault, again, sample); }
  }

  /** And what the caller is told when there is nothing to show. */
  lemma RefusalsTell(store: Store, s: AccessState, purpose: Fence.Purpose, reply: Reply, fault: Fault, again: Fault,
      sample: Sample)
    ensures var r := Concluded(store, s, purpose, reply, fault, again, sample);
            var withheld := TakesWithholding(s, store, fault, again);
            match reply
            case Good(_) =>
              r.Err? ==> r.error == if Readable(store, fault) && s.storageVersion != store.version then StaleResponse
                                    else StorageError
            case Unavailable(_) => r.Err? ==> r.error == TransientError
            case Abandoned => r == Err(Cancelled)
            case Unsupported => r == Err(if purpose.Validation? || withheld then VersionUnsupported else StorageError)
            case Withheld => r == Err(if withheld then DeniedError else StorageError)
            case Dead => r == Err(if TakesInvalidation(store, fault) then DeniedError else StorageError)
            case Unacceptable => r == Err(if TakesInvalidation(store, fault) then InvalidResponse else StorageError)
  {
    InvalidationAdvances(store, fault);
    var after := InvalidateStore(store, fault).0;
    if s.credential.Some? { SaveIsFenced(after, after.version, s.credential.value, again); }
    ConcludesIff(store, s, purpose, reply, fault, again, sample);
    hide AcceptEffect, SnapshotLocked, Told, Bridged, InvalidateStore;
  }

  // ----- Synchronising -----

  /** A client keeps what it has exactly while storage reports the version it knows; otherwise nothing is left, and with
      another version the client goes on from that one. */
  lemma SynchronisingKeepsIff(s: AccessState, version: Option<nat>)
    ensures var (t, ok) := Synced(s, version);
            && (ok <==> version.Some?)
            && (version == Some(s.storageVersion) ==> t == s)
            && (version != Some(s.storageVersion) ==>
                  && Emptied(s, t) && t.credential.None? && !t.account
                  && t.storageVersion == if version.Some? then version.value else s.storageVersion)
  {}

  // ----- Seats -----

  /** The seat that a reply has given; a clock that fails loses it again. */
  function SeatGiven(reply: SeatReply, sample: Sample): Option<SessionRuntime>
    requires reply.Granted?
  {
    if Now(reply.anchor, sample).None? then None
    else Some(SessionRuntime(reply.id, reply.sequence, reply.expiresAt, reply.refreshAfter, reply.entitlements,
      reply.anchor, 0))
  }

  /** A section that takes a seat, for request q, and shows it if it lives. */
  ghost predicate TakesSeat(s: AccessState, reply: SeatReply, sample: Sample, q: nat, e: Fence.Effect) {
    && reply.Granted? && e.taken == Some(q) && e.party.seatFrom == Some(q)
    && e.party.state == s.(session := SeatGiven(reply, sample))
    && (e.shown.Some? <==> SeatLives(Seat(reply), s.sessionLicenceExpiresAt, sample))
  }

  /** A section that takes none. */
  predicate LeavesSeat(p: Fence.Party, t: AccessState, e: Fence.Effect) {
    e.taken.None? && e.shown.None? && e.party.seatFrom == p.seatFrom && e.party.state == t
  }

  lemma SeatedTakes(w: Fence.World, p: Fence.Party, q: nat, s: AccessState, reply: SeatReply, sample: Sample)
    requires reply.Granted? && s.session == Some(Seat(reply))
    ensures TakesSeat(s, reply, sample, q, Fence.Seated(w, p, q, s, sample))
  {
    SeatLookIff(s, sample);
    SeatIsLookedAt(s, sample);
    hide Now, SessionSnapshot, SeatLives;
  }

  /** What the end of a start does to a client among others: a reply for its seat is taken in its generation, others leave
      the pending ID for another try or drop it. */
  lemma SeatStepDoes(w: Fence.World, p: Fence.Party, q: nat, reply: SeatReply, cancelled: bool, sample: Sample)
    requires q < |w.requests| && w.requests[q].purpose.NewSeat? && p.state.generation == w.requests[q].generation
    ensures var e := Fence.DoTakeSeat(w, p, q, reply, cancelled, sample);
            var dropped := p.state.(pendingSessionID := None);
            if !cancelled && SameSeat(reply, w.requests[q].purpose.id, 1) then
              TakesSeat(dropped, reply, sample, q, e)
            else if cancelled || reply in {CallerCancelled, SeatExpired, SeatEnded, SequenceConflict} then
              LeavesSeat(p, dropped, e)
            else LeavesSeat(p, p.state, e)
  {
    if !cancelled && SameSeat(reply, w.requests[q].purpose.id, 1) {
      SeatedTakes(w, p, q, FinishStart(p.state, w.requests[q].purpose.id, reply, false), reply, sample);
    }
    hide Fence.Seated, Seat, SeatGiven, SeatLives;
  }

  /** The same for a renewal, which the seat must still be waiting for; a lost reply changes nothing. */
  lemma RenewalStepDoes(w: Fence.World, p: Fence.Party, q: nat, reply: SeatReply, cancelled: bool, sample: Sample)
    requires q < |w.requests| && w.requests[q].purpose.Renewal? && p.state.generation == w.requests[q].generation
    ensures var e, s := Fence.DoTakeRenewal(w, p, q, reply, cancelled, sample), p.state;
            var id, number := w.requests[q].purpose.id, w.requests[q].purpose.number;
            if cancelled then LeavesSeat(p, s.(session := None, sessionDisabled := true), e)
            else if SameSeat(reply, id, number) then
              if Renewing(s, id, number) then TakesSeat(s, reply, sample, q, e)
              else LeavesSeat(p, s, e)
            else
              match reply
              case NoReply => LeavesSeat(p, s, e)
              case SeatExpired =>
                LeavesSeat(p, s.(session := None, pendingSessionID := None, sessionDisabled := false), e)
              case _ => LeavesSeat(p, s.(session := None, sessionDisabled := true), e)
  {
    var id, number := w.requests[q].purpose.id, w.requests[q].purpose.number;
    if !cancelled && SameSeat(reply, id, number) && Renewing(p.state, id, number) {
      SeatedTakes(w, p, q, FinishRenewal(p.state, id, number, reply, false), reply, sample);
    }
    hide Fence.Seated, Seat, SeatGiven, SeatLives;
  }

  /** Nothing answers for an earlier generation. */
  lemma StaleSeatsAreLeft(w: Fence.World, p: Fence.Party, q: nat, reply: SeatReply, cancelled: bool, sample: Sample)
    requires q < |w.requests| && p.state.generation != w.requests[q].generation
    ensures w.requests[q].purpose.NewSeat? ==>
              LeavesSeat(p, p.state, Fence.DoTakeSeat(w, p, q, reply, cancelled, sample))
    ensures w.requests[q].purpose.Renewal? ==>
              LeavesSeat(p, p.state, Fence.DoTakeRenewal(w, p, q, reply, cancelled, sample))
  {}

  // ----- Among many clients -----

  /** accept looks at its own client, its request and storage, and at nothing else. */
  lemma AcceptIsLocal(w: Fence.World, p: Fence.Party, q: nat, reply: Reply, fault: Fault, sample: Sample)
    requires q < |w.requests| && p.state.generation == w.requests[q].generation
    ensures var e := Fence.DoAccept(w, p, q, reply, fault, sample);
            var v := Around(w.store, p.state.generation, w.requests[q].purpose);
            var f := Fence.DoAccept(v, Holding(p.state), 0, reply, fault, sample);
            && e.party.state == f.party.state && e.party.stage == f.party.stage && e.store == f.store
            && e.requests == w.requests && (e.party.stage.Resaving? || e.party.stage.Idle?)
            && e.party.closed == p.closed && e.party.seatFrom == p.seatFrom
  {
    hide SnapshotLocked, SaveAt, InvalidateStore, ClearState, AfterOutage, AfterUnsupported, Installed;
  }

  /** One client's section in the interleaved machine is that section, with nobody between its two operations. */
  lemma StepAccepts(w: Fence.World, i: nat, q: nat, reply: Reply, fault: Fault, again: Fault, sample: Sample)
    requires i < |w.parties| && w.parties[i].stage.Looked? && Fence.Answers(w, i, q)
    requires w.requests[q].purpose.Activation? || w.requests[q].purpose.Validation?
    requires w.parties[i].state.generation == w.requests[q].generation
    ensures var p, v := w.parties[i], Fence.Step(w, Fence.ByClient(i, Fence.Accept(q, reply, fault, sample)));
            var x := if v.parties[i].stage.Resaving? then Fence.Step(v, Fence.ByClient(i, Fence.Resave(again))) else v;
            && |x.parties| == |w.parties| && x.parties == w.parties[i := x.parties[i]] && x.parties[i].stage.Idle?
            && Does(p.state, w.store, w.requests[q].purpose, reply, fault, again, x.parties[i].state, x.store)
  {
    var heard := w.(requests := Fence.Heard(w.requests, q, Fence.Said(reply)));
    AcceptIsLocal(heard, w.parties[i], q, reply, fault, sample);
    RepliesDo(w.store, w.parties[i].state, w.requests[q].purpose, reply, fault, again, sample);
    hide Fence.DoAccept, SaveAt, Does;
  }

  // ----- What the sections ask and show -----

  /** A section that asks: its request carries the generation and the storage version it was built at. */
  predicate Asks(w: Fence.World, i: nat, v: Fence.World, purpose: Fence.Purpose) {
    && i < |v.parties| && v.parties[i].stage.Idle?
    && v.requests == w.requests +
         [Fence.Request(i, v.parties[i].state.generation, v.parties[i].state.storageVersion, purpose, Fence.Waiting)]
  }

  /** A look is handed out as it is; it is usable exactly while authority lives, and rests on that authority's request. */
  lemma LooksAreShown(w: Fence.World, i: nat, sample: Sample)
    requires i < |w.parties| && w.parties[i].stage.Looked?
    ensures var p, v := w.parties[i], Fence.Step(w, Fence.ByClient(i, Fence.Show(sample)));
            && |v.shown| == |w.shown| + 1 && v.shown[..|w.shown|] == w.shown
            && var s := v.shown[|w.shown|];
            && s.client == i && s.since == p.stage.since && s.snapshot == CheckedSnapshot(p.state, sample).1
            && (Fence.Usable(s.snapshot) <==> Lives(p.state, sample))
            && s.origin == (if p.state.sessionRequired then p.seatFrom else p.grantFrom)
  {
    LookIsUsableIff(w.parties[i].state, sample);
    LooksKeepPolicy(w.parties[i].state, sample);
    hide CheckedSnapshot, Lives;
  }

  /** An activation leaves, with everything cleared and under a new generation and version, exactly if storage takes the
      invalidation. */
  lemma ActivationLeavesIff(w: Fence.World, i: nat, keepAccount: bool, fault: Fault)
    requires i < |w.parties| && w.parties[i].stage.Looked?
    ensures var s, v := w.parties[i].state, Fence.Step(w, Fence.ByClient(i, Fence.BeginActivation(keepAccount, fault)));
            var t := v.parties[i].state;
            && Emptied(s, t) && t.credential.None? && t.account == (keepAccount && s.account)
            && (if TakesInvalidation(w.store, fault) then
                  && Asks(w, i, v, Fence.Activation) && t.storageVersion == v.store.version
                  && v.store == w.store.(version := w.store.version + 1, credential := None)
                else v.requests == w.requests)
  {
    InvalidationAdvances(w.store, fault);
    var e := Fence.DoBeginActivation(w, i, w.parties[i], keepAccount, fault);
    assert Fence.Act(w, i, w.parties[i], Fence.BeginActivation(keepAccount, fault)) == e;
    assert InvalidateStore(w.store, fault).1.None? ==> e.requests == w.requests;
    hide InvalidateStore, TakesInvalidation;
  }

  /** A validation leaves exactly if there is a credential, and changes nothing. */
  lemma ValidationLeavesIff(w: Fence.World, i: nat)
    requires i < |w.parties| && w.parties[i].stage.Looked?
    ensures var s, v := w.parties[i].state, Fence.Step(w, Fence.ByClient(i, Fence.BeginValidation));
            && v.parties[i].state == s && v.store == w.store
            && (if s.credential.Some? then Asks(w, i, v, Fence.Validation(s.credential.value))
                else v.requests == w.requests)
  {}

  /** A start leaves exactly where MayAsk says, with the ID StartID says. */
  lemma StartLeavesIff(w: Fence.World, i: nat, explicit: bool, trip: Trip, sample: Sample)
    requires i < |w.parties| && w.parties[i].stage.Looked?
    ensures var s := w.parties[i].state;
            var v := Fence.Step(w, Fence.ByClient(i, Fence.AskSeat(explicit, trip.newID, trip.pendingTooOld, sample)));
            if MayAsk(s, explicit, sample) then Asks(w, i, v, Fence.NewSeat(StartID(s, trip)))
            else v.requests == w.requests
  {
    var p, a := w.parties[i], Fence.AskSeat(explicit, trip.newID, trip.pendingTooOld, sample);
    StartAsksIff(p.state, explicit, trip, sample);
    assert Fence.Act(w, i, p, a) == Fence.DoAskSeat(w, i, p, explicit, trip.newID, trip.pendingTooOld, sample);
    hide StartSeat, MayAsk, StartID, Fence.Act;
  }

  /** A renewal leaves exactly with a seat and a credential, for the number the seat then waits for. */
  lemma RenewalLeavesIff(w: Fence.World, i: nat)
    requires i < |w.parties| && w.parties[i].stage.Looked?
    ensures var s, v := w.parties[i].state, Fence.Step(w, Fence.ByClient(i, Fence.AskRenewal));
            if s.session.Some? && s.credential.Some? then
              && v.parties[i].state.session.Some?
              && Asks(w, i, v, Fence.Renewal(s.session.value.id, v.parties[i].state.session.value.pendingSequence))
              && Renewing(v.parties[i].state, s.session.value.id, v.parties[i].state.session.value.pendingSequence)
            else v.requests == w.requests && v.parties[i].state == s
  {}

  /** Installed by a section that began at this time or later, or saved then. */
  predicate Counts(t: Fence.Taken, clock: nat) { t.since >= clock || (t.saved && t.at >= clock) }

  /** A denial, or a reply that cannot be trusted, in storage that takes the invalidation: whatever happened before and
      whatever comes after, no later section of any client shows or installs anything that an earlier request was told,
      nobody saves it, and what ends the credential leaves none in storage. */
  lemma DeniedAuthorityNeverReturns(store: Store, before: seq<Fence.Event>, i: nat, q: nat, reply: Reply, fault: Fault,
      sample: Sample, after: seq<Fence.Event>)
    requires reply.Dead? || reply.Unacceptable? || reply.Withheld?
    requires var w0 := Fence.Run(Fence.Start(store), before);
             && i < |w0.parties| && w0.parties[i].stage.Looked? && Fence.Answers(w0, i, q)
             && (w0.requests[q].purpose.Activation? || w0.requests[q].purpose.Validation?)
             && w0.parties[i].state.generation == w0.requests[q].generation && TakesInvalidation(w0.store, fault)
    ensures var w0 := Fence.Run(Fence.Start(store), before);
            var w1 := Fence.Step(w0, Fence.ByClient(i, Fence.Accept(q, reply, fault, sample)));
            var w2 := Fence.Run(w1, after);
            && w1.store == w0.store.(version := w0.store.version + 1, credential := None)
            && w1.parties[i].state.claims.None? && w1.parties[i].state.session.None?
            && w1.parties[i].state.credential.None?
            && (forall n ::
                  0 <= n < |w2.shown| && w2.shown[n].since >= w1.clock && Fence.Usable(w2.shown[n].snapshot) ==>
                  w2.shown[n].origin.Some? && w2.shown[n].origin.value >= |w0.requests|)
            && (forall n :: 0 <= n < |w2.taken| && Counts(w2.taken[n], w1.clock) ==>
                  w2.taken[n].origin >= |w0.requests|)
  {
    var w0 := Fence.Run(Fence.Start(store), before);
    var e := Fence.ByClient(i, Fence.Accept(q, reply, fault, sample));
    DenialInvalidates(w0, i, q, reply, fault, sample);
    Fence.RevokedAuthorityNeverReturns(store, before, e, after);
    hide Fence.Step, Fence.Run, TakesInvalidation;
  }

  lemma DenialInvalidates(w: Fence.World, i: nat, q: nat, reply: Reply, fault: Fault, sample: Sample)
    requires i < |w.parties| && w.parties[i].stage.Looked? && Fence.Answers(w, i, q)
    requires w.requests[q].purpose.Activation? || w.requests[q].purpose.Validation?
    requires w.parties[i].state.generation == w.requests[q].generation && TakesInvalidation(w.store, fault)
    requires reply.Dead? || reply.Unacceptable? || reply.Withheld?
    ensures var v := Fence.Step(w, Fence.ByClient(i, Fence.Accept(q, reply, fault, sample)));
            && v.store == w.store.(version := w.store.version + 1, credential := None)
            && |v.parties| == |w.parties| && v.parties[i].state.claims.None? && v.parties[i].state.session.None?
            && v.parties[i].state.credential.None?
  {
    InvalidationAdvances(w.store, fault);
    hide InvalidateStore, TakesInvalidation;
  }
}
