/** Any number of clients over one storage (sdk/go/access.go, sdk/go/sessions.go, sdk/go/storage.go). A client's lock
    makes its own critical sections exclude each other; other clients act between any two storage operations, and
    nobody holds a lock while a request is in flight. Replies, clock samples and provider faults are arbitrary. */
module Fence {
  import opened Common
  import opened Text
  import opened Storage
  import opened Clock
  import opened Access

  datatype Purpose = Activation | Validation(previous: StoredCredential) | NewSeat(id: Text) | Renewal(id: Text,
      number: nat)

  /** What the reply to a request said, once there is one. */
  datatype Outcome = Waiting | Nothing | Told(entitlements: map<Text, bool>)

  /** generation and born are the client's generation and storage version when the request was built. */
  datatype Request = Request(client: nat, generation: nat, born: nat, purpose: Purpose, outcome: Outcome)

  /** Looked: inside a critical section whose synchronisation with storage succeeded at time since.
      Resaving: between the two storage operations that withhold access but keep the credential. */
  datatype Stage = Idle | Looked(since: nat) | Resaving(version: nat, credential: StoredCredential)

  /** grantFrom and seatFrom name the requests whose replies supplied the claims and the seat. */
  datatype Party = Party(state: AccessState, closed: bool, stage: Stage, grantFrom: Option<nat>, seatFrom: Option<nat>)

  /** A snapshot handed to a caller from a critical section that synchronised at time since. */
  datatype Shown = Shown(client: nat, since: nat, snapshot: Snapshot, origin: Option<nat>)

  /** A reply that was installed; saved says that it was also written to storage. */
  datatype Taken = Taken(since: nat, at: nat, saved: bool, origin: nat)

  datatype World = World(
    store: Store, parties: seq<Party>, requests: seq<Request>, clock: nat, shown: seq<Shown>, taken: seq<Taken>)

  datatype Action =
    | Look(fault: Fault)
    | Release
    | Show(sample: Sample)
    | BeginActivation(keepAccount: bool, fault: Fault)
    | BeginValidation
    | Accept(request: nat, reply: Reply, fault: Fault, sample: Sample)
    | Resave(fault: Fault)
    | SignOff(keepAccount: bool, fault: Fault)
    | AskSeat(explicit: bool, newID: Text, pendingTooOld: bool, sample: Sample)
    | TakeSeat(request: nat, seat: SeatReply, cancelled: bool, sample: Sample)
    | AskRenewal
    | TakeRenewal(request: nat, seat: SeatReply, cancelled: bool, sample: Sample)
    | LeaveSeat
    | Close

  datatype Event = ByClient(client: nat, action: Action) | Open(fault: Fault) | Outside(fault: Fault)

  /** What an action of one client changes, and the snapshot it hands out with the request that snapshot rests on. */
  datatype Effect = Effect(
    party: Party, store: Store, requests: seq<Request>, shown: Option<(Snapshot, Option<nat>)>, taken: Option<nat>,
        saved: bool)

  // ----- The actions -----

  function Usable(snapshot: Snapshot): bool { snapshot.access == Online || snapshot.access == Offline }

  function Quiet(w: World, p: Party): Effect { Effect(p, w.store, w.requests, None, None, false) }

  function Ended(p: Party, s: AccessState): Party { p.(state := s, stage := Idle) }

  /** The request whose reply a snapshot of this client rests on. */
  function Origin(p: Party): Option<nat> { if p.state.sessionRequired then p.seatFrom else p.grantFrom }

  function Ask(w: World, i: nat, p: Party, s: AccessState, purpose: Purpose): Effect {
    Quiet(w, Ended(p, s)).(requests := w.requests + [Request(i, s.generation, s.storageVersion, purpose, Waiting)])
  }

  predicate Answers(w: World, i: nat, q: nat) {
    q < |w.requests| && w.requests[q].client == i && w.requests[q].outcome == Waiting
  }

  function Heard(requests: seq<Request>, q: nat, outcome: Outcome): seq<Request>
    requires q < |requests|
  {
    requests[q := requests[q].(outcome := outcome)]
  }

  function Said(reply: Reply): Outcome {
    if reply.Good? && reply.verified.claims.Some? then Told(reply.verified.claims.value.entitlements) else Nothing
  }

  function SeatSaid(reply: SeatReply): Outcome { if reply.Granted? then Told(reply.entitlements) else Nothing }

  function DoLook(w: World, p: Party, fault: Fault): Effect {
    var (store, version) := ReadVersion(w.store, fault);
    var (s, ok) := Synced(p.state, version);
    Quiet(w, p.(state := s, stage := if ok then Looked(w.clock) else Idle)).(store := store)
  }

  function DoShow(w: World, p: Party, sample: Sample): Effect {
    var (s, snapshot) := CheckedSnapshot(p.state, sample);
    Quiet(w, Ended(p, s)).(shown := Some((snapshot, Origin(Ended(p, s)))))
  }

  function Cleared(s: AccessState, keepAccount: bool): AccessState {
    if keepAccount then ClearAccess(s)
      else ClearState(s)
  }

  function DoBeginActivation(w: World, i: nat, p: Party, keepAccount: bool, fault: Fault): Effect {
    var (store, version) := InvalidateStore(w.store, fault);
    var s := Invalidated(Cleared(p.state, keepAccount), version);
    (if version.None? then Quiet(w, Ended(p, s)) else Ask(w, i, p, s, Activation)).(store := store)
  }

  function DoSignOff(w: World, p: Party, keepAccount: bool, fault: Fault): Effect {
    var (store, version) := InvalidateStore(w.store, fault);
    Quiet(w, Ended(p, Invalidated(Cleared(p.state, keepAccount), version))).(store := store)
  }

  /** A verified reply is installed only if storage still takes it. */
  function DoGood(w: World, p: Party, q: nat, v: Verified, fault: Fault, sample: Sample): Effect
    requires q < |w.requests|
  {
    var (store, result) := SaveAt(w.store, p.state.storageVersion, v.saved, fault);
    if result != Saved then Quiet(w, Ended(p, ClearState(p.state))).(store := store)
    else
      var purpose := w.requests[q].purpose;
      var s := Installed(p.state, v, if purpose.Validation? then Some(purpose.previous) else None);
      var (t, snapshot) := SnapshotLocked(s, sample);
      var party := Ended(p, t).(grantFrom := Some(q));
      Effect(party, store, w.requests, Some((snapshot, Origin(party))), Some(q), true)
  }

  function DoOutage(w: World, p: Party, verifying: bool, sample: Sample): Effect {
    var (t, snapshot) := SnapshotLocked(AfterOutage(p.state, verifying), sample);
    Quiet(w, Ended(p, t)).(shown := if snapshot.access == Offline then Some((snapshot, Origin(Ended(p, t)))) else None)
  }

  /** A denial that keeps the credential: clear, invalidate, and save the credential back at the new version. */
  function DoWithhold(w: World, p: Party, fault: Fault): Effect {
    var (store, version) := InvalidateStore(w.store, fault);
    var s := ClearState(p.state);
    if version.None? then Quiet(w, Ended(p, s)).(store := store)
    else if p.state.credential.None? then
      Quiet(w, Ended(p, s.(storageVersion := version.value, account := p.state.account))).(store := store)
    else
      Quiet(w, p.(state := s.(account := p.state.account),
          stage := Resaving(version.value, p.state.credential.value))).(store := store)
  }

  function DoResave(w: World, p: Party, fault: Fault): Effect
    requires p.stage.Resaving?
  {
    var (store, result) := SaveAt(w.store, p.stage.version, p.stage.credential, fault);
    var s := if result == Saved then p.state.(storageVersion := p.stage.version, credential := Some(p.stage.credential))
             else p.state.(account := false);
    Quiet(w, Ended(p, s)).(store := store)
  }

  /** accept: a reply whose request belongs to an earlier generation changes nothing. */
  function DoAccept(w: World, p: Party, q: nat, reply: Reply, fault: Fault, sample: Sample): Effect
    requires q < |w.requests|
  {
    if p.state.generation != w.requests[q].generation then Quiet(w, Ended(p, p.state))
    else
      match reply
      case Good(v) => DoGood(w, p, q, v, fault, sample)
      case Unavailable(verifying) => DoOutage(w, p, verifying, sample)
      case Abandoned => Quiet(w, Ended(p, p.state))
      case Unsupported =>
        if w.requests[q].purpose.Validation? then Quiet(w, Ended(p, AfterUnsupported(p.state)))
            else DoWithhold(w, p, fault)
      case Withheld => DoWithhold(w, p, fault)
      case Dead => DoSignOff(w, p, false, fault)
      case Unacceptable => DoSignOff(w, p, false, fault)
  }

  function DoAskSeat(w: World, i: nat, p: Party, explicit: bool, newID: Text, pendingTooOld: bool,
      sample: Sample): Effect {
    match StartSeat(p.state, explicit, newID, pendingTooOld, sample)
    case Answer(s, snapshot) => Quiet(w, Ended(p, s)).(shown := Some((snapshot, Origin(Ended(p, s)))))
    case Refuse(s, _) => Quiet(w, Ended(p, s))
    case Ask(s, id) => Ask(w, i, p, s, NewSeat(id))
  }

  function Seated(w: World, p: Party, q: nat, s: AccessState, sample: Sample): Effect {
    var (t, snapshot) := SessionSnapshot(s, sample);
    Effect(Ended(p, t).(seatFrom := Some(q)), w.store, w.requests,
      if snapshot.access == Online then Some((snapshot, Some(q))) else None, Some(q), false)
  }

  function DoTakeSeat(w: World, p: Party, q: nat, reply: SeatReply, cancelled: bool, sample: Sample): Effect
    requires q < |w.requests| && w.requests[q].purpose.NewSeat?
  {
    var id := w.requests[q].purpose.id;
    if p.state.generation != w.requests[q].generation then Quiet(w, Ended(p, p.state))
    else
      var s := FinishStart(p.state, id, reply, cancelled);
      if !cancelled && SameSeat(reply, id, 1) then Seated(w, p, q, s, sample) else Quiet(w, Ended(p, s))
  }

  function DoTakeRenewal(w: World, p: Party, q: nat, reply: SeatReply, cancelled: bool, sample: Sample): Effect
    requires q < |w.requests| && w.requests[q].purpose.Renewal?
  {
    var id, number := w.requests[q].purpose.id, w.requests[q].purpose.number;
    if p.state.generation != w.requests[q].generation then Quiet(w, Ended(p, p.state))
    else
      var s := FinishRenewal(p.state, id, number, reply, cancelled);
      if !cancelled && SameSeat(reply, id, number) && Renewing(p.state, id, number) then Seated(w, p, q, s, sample)
      else Quiet(w, Ended(p, s))
  }

  /** One action of client i; an action the client is not ready for changes nothing. */
  function Act(w: World, i: nat, p: Party, a: Action): Effect {
    if a.Look? then (if p.stage.Idle? && !p.closed then DoLook(w, p, a.fault) else Quiet(w, p))
    else if a.Close? then (if p.stage.Idle? then Quiet(w, p.(state := ClearState(p.state), closed := true))
        else Quiet(w, p))
    else if a.Resave? then (if p.stage.Resaving? then DoResave(w, p, a.fault) else Quiet(w, p))
    else if !p.stage.Looked? then Quiet(w, p)
    else InSection(w, i, p, a)
  }

  function InSection(w: World, i: nat, p: Party, a: Action): Effect {
    match a
    case Show(sample) => DoShow(w, p, sample)
    case BeginActivation(keepAccount, fault) => DoBeginActivation(w, i, p, keepAccount, fault)
    case BeginValidation =>
      if p.state.credential.None? then Quiet(w, Ended(p, p.state))
      else Ask(w, i, p, p.state, Validation(p.state.credential.value))
    case Accept(q, reply, fault, sample) =>
      if Answers(w, i, q) && (w.requests[q].purpose.Activation? || w.requests[q].purpose.Validation?) then
        DoAccept(w.(requests := Heard(w.requests, q, Said(reply))), p, q, reply, fault, sample)
      else Quiet(w, p)
    case SignOff(keepAccount, fault) => DoSignOff(w, p, keepAccount, fault)
    case AskSeat(explicit, newID, pendingTooOld, sample) => DoAskSeat(w, i, p, explicit, newID, pendingTooOld, sample)
    case TakeSeat(q, reply, cancelled, sample) =>
      if Answers(w, i, q) && w.requests[q].purpose.NewSeat? then
        DoTakeSeat(w.(requests := Heard(w.requests, q, SeatSaid(reply))), p, q, reply, cancelled, sample)
      else Quiet(w, p)
    case AskRenewal =>
      if p.state.session.None? || p.state.credential.None? then Quiet(w, Ended(p, p.state))
      else
        var s := BeginRenewal(p.state);
        Ask(w, i, p, s, Renewal(s.session.value.id, s.session.value.pendingSequence))
    case TakeRenewal(q, reply, cancelled, sample) =>
      if Answers(w, i, q) && w.requests[q].purpose.Renewal? then
        DoTakeRenewal(w.(requests := Heard(w.requests, q, SeatSaid(reply))), p, q, reply, cancelled, sample)
      else Quiet(w, p)
    case LeaveSeat => Quiet(w, Ended(p, if p.state.sessionRequired then EndSeat(p.state) else p.state))
    case _ => Quiet(w, Ended(p, p.state))
  }

  function Since(p: Party): nat { if p.stage.Looked? then p.stage.since else 0 }

  function Opened(store: Store): Party {
    Party(AccessState(0, store.version, false, store.credential, None, None, false, None,
        false, false, false, None, None, None, None, false), false, Idle, None, None)
  }

  function Applied(w: World, i: nat, e: Effect): World
    requires i < |w.parties|
  {
    World(e.store, w.parties[i := e.party], e.requests, w.clock + 1,
      w.shown + (if e.shown.None? then [] else [Shown(i, Since(w.parties[i]), e.shown.value.0, e.shown.value.1)]),
      w.taken + (if e.taken.None? then [] else [Taken(Since(w.parties[i]), w.clock, e.saved, e.taken.value)]))
  }

  function Step(w: World, e: Event): World {
    match e
    case ByClient(i, a) => if i < |w.parties| then Applied(w, i, Act(w, i, w.parties[i], a)) else w
    case Open(fault) =>
      if Readable(w.store, fault) then w.(parties := w.parties + [Opened(w.store)], clock := w.clock + 1)
      else w.(store := Poison(w.store), clock := w.clock + 1)
    case Outside(fault) => w.(store := InvalidateStore(w.store, fault).0, clock := w.clock + 1)
  }

  function Run(w: World, events: seq<Event>): World
    decreases |events|
  {
    if events == [] then w else Run(Step(w, events[0]), events[1..])
  }

  function Start(store: Store): World { World(store, [], [], 0, [], []) }

  // ----- What every step keeps -----

  /** A request of this client is either of an earlier generation or of this generation and this storage version. */
  ghost predicate Fenced(i: nat, s: AccessState, requests: seq<Request>) {
    forall k :: 0 <= k < |requests| && requests[k].client == i ==>
      requests[k].generation < s.generation
          || (requests[k].generation == s.generation && requests[k].born == s.storageVersion)
  }

  /** Every request of this client is of an earlier generation. */
  ghost predicate Superseded(i: nat, s: AccessState, requests: seq<Request>) {
    forall k :: 0 <= k < |requests| && requests[k].client == i ==> requests[k].generation < s.generation
  }

  /** Request o, built at the given version, told this client these entitlements. */
  predicate Supplied(i: nat, requests: seq<Request>, o: Option<nat>, version: nat, entitlements: map<Text, bool>) {
    && o.Some? && o.value < |requests| && requests[o.value].client == i && requests[o.value].born == version
    && requests[o.value].outcome == Told(entitlements)
  }

  ghost predicate Sound(i: nat, p: Party, requests: seq<Request>) {
    && p.state.offline.None?
    && Fenced(i, p.state, requests)
    && (p.state.claims.Some? ==>
          Supplied(i, requests, p.grantFrom, p.state.storageVersion, p.state.claims.value.entitlements))
    && (p.state.session.Some? ==>
          Supplied(i, requests, p.seatFrom, p.state.storageVersion, p.state.session.value.entitlements))
    && (p.stage.Resaving? ==> Superseded(i, p.state, requests) && p.state.claims.None? && p.state.session.None?)
  }

  predicate Versions(p: Party, version: nat) {
    p.state.storageVersion <= version && (p.stage.Resaving? ==> p.stage.version <= version)
  }

  /** Requests are only added and answered, and only on behalf of client i. */
  ghost predicate Grown(i: nat, before: seq<Request>, after: seq<Request>) {
    && |before| <= |after|
    && (forall k :: 0 <= k < |before| ==>
          SameRequest(before[k], after[k]) && (before[k].client != i ==> after[k] == before[k]))
    && (forall k :: |before| <= k < |after| ==> after[k].client == i)
  }

  predicate SameRequest(a: Request, b: Request) {
    && b.client == a.client && b.generation == a.generation && b.born == a.born && b.purpose == a.purpose
    && (a.outcome != Waiting ==> b == a)
  }

  /** What an action may show and take. */
  ghost predicate Honest(i: nat, p: Party, requests: seq<Request>, version: nat, e: Effect) {
    && (e.shown.Some? && Usable(e.shown.value.0) ==>
          p.stage.Looked? && Supplied(i, e.requests, e.shown.value.1, p.state.storageVersion,
              e.shown.value.0.entitlements))
    && (e.taken.Some? ==>
          p.stage.Looked? && e.taken.value < |requests| && requests[e.taken.value].born == p.state.storageVersion)
    && (e.saved ==> p.state.storageVersion == version)
  }

  ghost predicate Kept(w: World, i: nat, p: Party, e: Effect) {
    && Sound(i, e.party, e.requests) && Versions(e.party, e.store.version)
        && Honest(i, p, w.requests, w.store.version, e)
    && Grown(i, w.requests, e.requests) && w.store.version <= e.store.version
    && (forall k :: |w.requests| <= k < |e.requests| ==> e.requests[k].born <= e.store.version)
    && (e.party.stage.Looked? && e.party != p ==>
          e.party.stage.since == w.clock && e.party.state.storageVersion == e.store.version)
  }

  ghost predicate Ready(w: World, i: nat, p: Party) {
    Sound(i, p, w.requests) && Versions(p, w.store.version)
  }

  // ----- One client at a time -----

  /** The new state holds no authority and has left every earlier generation behind. */
  predicate Reset(s: AccessState, t: AccessState) {
    t.generation > s.generation && t.claims.None? && t.session.None? && t.offline.None?
  }

  /** The new state holds no authority the old one did not hold. */
  predicate Weaker(s: AccessState, t: AccessState) {
    && t.generation >= s.generation && t.storageVersion == s.storageVersion && t.offline.None?
    && (t.claims.Some? ==> t.claims == s.claims)
    && (t.session.Some? ==> s.session.Some? && t.session.value.entitlements == s.session.value.entitlements)
  }

  lemma SuppliedGrows(i: nat, j: nat, before: seq<Request>, after: seq<Request>, o: Option<nat>, version: nat,
      entitlements: map<Text, bool>)
    requires Grown(j, before, after) && Supplied(i, before, o, version, entitlements)
    ensures Supplied(i, after, o, version, entitlements)
  {
    assert SameRequest(before[o.value], after[o.value]);
  }

  lemma FencedGrows(i: nat, j: nat, s: AccessState, before: seq<Request>, after: seq<Request>)
    requires Grown(j, before, after) && (j == i ==> |after| == |before|)
    ensures Fenced(i, s, before) ==> Fenced(i, s, after)
    ensures Superseded(i, s, before) ==> Superseded(i, s, after)
  {
    forall k | 0 <= k < |after| && after[k].client == i ensures k < |before| && SameRequest(before[k], after[k]) {}
  }

  lemma SoundGrows(i: nat, j: nat, p: Party, before: seq<Request>, after: seq<Request>)
    requires Grown(j, before, after) && (j == i ==> |after| == |before|) && Sound(i, p, before)
    ensures Sound(i, p, after)
  {
    FencedGrows(i, j, p.state, before, after);
    if p.state.claims.Some? {
      SuppliedGrows(i, j, before, after, p.grantFrom, p.state.storageVersion, p.state.claims.value.entitlements);
    }
    if p.state.session.Some? {
      SuppliedGrows(i, j, before, after, p.seatFrom, p.state.storageVersion, p.state.session.value.entitlements);
    }
  }

  lemma HeardGrows(w: World, i: nat, q: nat, outcome: Outcome)
    requires Answers(w, i, q)
    ensures Grown(i, w.requests, Heard(w.requests, q, outcome))
  {}

  lemma GrownTwice(i: nat, a: seq<Request>, b: seq<Request>, c: seq<Request>)
    requires Grown(i, a, b) && Grown(i, b, c)
    ensures Grown(i, a, c)
  {
    forall k | 0 <= k < |a| ensures SameRequest(a[k], c[k]) && (a[k].client != i ==> c[k] == a[k]) {
      assert SameRequest(a[k], b[k]) && SameRequest(b[k], c[k]);
    }
  }

  lemma ResetIsSound(i: nat, p: Party, t: AccessState, requests: seq<Request>)
    requires Sound(i, p, requests) && Reset(p.state, t)
    ensures Sound(i, Ended(p, t), requests) && Superseded(i, t, requests)
  {}

  lemma WeakerIsSound(i: nat, p: Party, t: AccessState, requests: seq<Request>)
    requires Sound(i, p, requests) && Weaker(p.state, t)
    ensures Sound(i, Ended(p, t), requests)
  {}

  /** A usable snapshot repeats the entitlements of the authority still held. */
  predicate ShownFrom(t: AccessState, snapshot: Snapshot) {
    Usable(snapshot) ==>
      if t.sessionRequired then t.session.Some? && snapshot.entitlements == t.session.value.entitlements
      else t.claims.Some? && snapshot.entitlements == t.claims.value.entitlements
  }

  lemma SnapshotsShowWhatIsHeld(s: AccessState, sample: Sample)
    requires s.offline.None?
    ensures var (t, snapshot) := SnapshotLocked(s, sample); Weaker(s, t) && ShownFrom(t, snapshot)
    ensures var (t, snapshot) := CheckedSnapshot(s, sample); Weaker(s, t) && ShownFrom(t, snapshot)
    ensures s.sessionRequired ==> var (t, snapshot) := SessionSnapshot(s, sample); Weaker(s, t) && ShownFrom(t, snapshot)
  {}

  lemma LookKeeps(w: World, i: nat, p: Party, fault: Fault)
    requires Ready(w, i, p) && p.stage.Idle?
    ensures Kept(w, i, p, DoLook(w, p, fault))
  {
    var (s, ok) := Synced(p.state, ReadVersion(w.store, fault).1);
    if Reset(p.state, s) { ResetIsSound(i, p, s, w.requests); }
  }

  lemma ShowKeeps(w: World, i: nat, p: Party, sample: Sample)
    requires Ready(w, i, p) && p.stage.Looked?
    ensures Kept(w, i, p, DoShow(w, p, sample))
  {
    hide CheckedSnapshot;
    SnapshotsShowWhatIsHeld(p.state, sample);
    WeakerIsSound(i, p, CheckedSnapshot(p.state, sample).0, w.requests);
  }

  lemma AskKeeps(w: World, i: nat, p: Party, s: AccessState, purpose: Purpose)
    requires Sound(i, Ended(p, s), w.requests)
    ensures var e := Ask(w, i, p, s, purpose); Sound(i, e.party, e.requests) && Grown(i, w.requests, e.requests)
  {
    var after := Ask(w, i, p, s, purpose).requests;
    assert forall k :: 0 <= k < |w.requests| ==> after[k] == w.requests[k];
  }

  lemma BeginActivationKeeps(w: World, i: nat, p: Party, keepAccount: bool, fault: Fault)
    requires Ready(w, i, p)
    ensures Kept(w, i, p, DoBeginActivation(w, i, p, keepAccount, fault))
  {
    InvalidationAdvances(w.store, fault);
    var s := Invalidated(Cleared(p.state, keepAccount), InvalidateStore(w.store, fault).1);
    hide InvalidateStore;
    ResetIsSound(i, p, s, w.requests);
    AskKeeps(w, i, p, s, Activation);
  }

  lemma SignOffKeeps(w: World, i: nat, p: Party, keepAccount: bool, fault: Fault)
    requires Ready(w, i, p)
    ensures Kept(w, i, p, DoSignOff(w, p, keepAccount, fault))
  {
    InvalidationAdvances(w.store, fault);
    hide InvalidateStore;
    ResetIsSound(i, p, Invalidated(Cleared(p.state, keepAccount), InvalidateStore(w.store, fault).1), w.requests);
  }

  lemma WithholdKeeps(w: World, i: nat, p: Party, fault: Fault)
    requires Ready(w, i, p)
    ensures Kept(w, i, p, DoWithhold(w, p, fault))
  {
    InvalidationAdvances(w.store, fault);
    hide InvalidateStore;
    var e := DoWithhold(w, p, fault);
    assert Reset(p.state, e.party.state);
    ResetIsSound(i, p, e.party.state, w.requests);
    var (store, version) := InvalidateStore(w.store, fault);
    assert e.party.stage.Resaving? ==> version.Some? && e.party.stage.version <= store.version;
  }

  lemma ResaveKeeps(w: World, i: nat, p: Party, fault: Fault)
    requires Ready(w, i, p) && p.stage.Resaving?
    ensures Kept(w, i, p, DoResave(w, p, fault))
  {}

  lemma OutageKeeps(w: World, i: nat, p: Party, verifying: bool, sample: Sample)
    requires Ready(w, i, p) && p.stage.Looked?
    ensures Kept(w, i, p, DoOutage(w, p, verifying, sample))
  {
    var s := AfterOutage(p.state, verifying);
    SnapshotsShowWhatIsHeld(s, sample);
    hide SnapshotLocked;
    WeakerIsSound(i, p, SnapshotLocked(s, sample).0, w.requests);
  }

  /** A saved reply becomes the client's authority. */
  lemma InstalledIsSound(i: nat, p: Party, requests: seq<Request>, q: nat, v: Verified,
      previous: Option<StoredCredential>)
    requires Sound(i, p, requests) && p.stage.Looked? && q < |requests| && requests[q].client == i
    requires requests[q].outcome == Said(Good(v)) && requests[q].generation == p.state.generation
    ensures Sound(i, Ended(p, Installed(p.state, v, previous)).(grantFrom := Some(q)), requests)
  {
    assert requests[q].born == p.state.storageVersion;
  }

  lemma GoodKeeps(w: World, i: nat, p: Party, q: nat, v: Verified, fault: Fault, sample: Sample)
    requires Ready(w, i, p) && p.stage.Looked? && q < |w.requests| && w.requests[q].client == i
    requires w.requests[q].outcome == Said(Good(v)) && w.requests[q].generation == p.state.generation
    ensures Kept(w, i, p, DoGood(w, p, q, v, fault, sample))
  {
    SaveIsFenced(w.store, p.state.storageVersion, v.saved, fault);
    hide SaveAt;
    if SaveAt(w.store, p.state.storageVersion, v.saved, fault).1 != Saved {
      ResetIsSound(i, p, ClearState(p.state), w.requests);
    } else {
      SavedKeeps(w, i, p, q, v, fault, sample);
    }
  }

  lemma SavedKeeps(w: World, i: nat, p: Party, q: nat, v: Verified, fault: Fault, sample: Sample)
    requires Ready(w, i, p) && p.stage.Looked? && q < |w.requests| && w.requests[q].client == i
    requires w.requests[q].outcome == Said(Good(v)) && w.requests[q].generation == p.state.generation
    requires SaveAt(w.store, p.state.storageVersion, v.saved, fault).1 == Saved
    ensures Kept(w, i, p, DoGood(w, p, q, v, fault, sample))
  {
    SaveIsFenced(w.store, p.state.storageVersion, v.saved, fault);
    var purpose := w.requests[q].purpose;
    var previous := if purpose.Validation? then Some(purpose.previous) else None;
    var s := Installed(p.state, v, previous);
    var installed := Ended(p, s).(grantFrom := Some(q));
    InstalledIsSound(i, p, w.requests, q, v, previous);
    assert w.requests[q].born == p.state.storageVersion == s.storageVersion;
    SnapshotsShowWhatIsHeld(s, sample);
    hide SnapshotLocked, SaveAt, Installed;
    WeakerIsSound(i, installed, SnapshotLocked(s, sample).0, w.requests);
    hide Fenced;
  }

  lemma AcceptKeeps(w: World, i: nat, p: Party, q: nat, reply: Reply, fault: Fault, sample: Sample)
    requires Ready(w, i, p) && p.stage.Looked? && q < |w.requests| && w.requests[q].client == i
    requires w.requests[q].outcome == Said(reply)
    ensures Kept(w, i, p, DoAccept(w, p, q, reply, fault, sample))
  {
    hide DoGood, DoOutage, DoWithhold, DoSignOff;
    if p.state.generation == w.requests[q].generation {
      match reply
      case Good(v) => GoodKeeps(w, i, p, q, v, fault, sample);
      case Unavailable(verifying) => OutageKeeps(w, i, p, verifying, sample);
      case Abandoned =>
      case Unsupported =>
        if w.requests[q].purpose.Validation? { WeakerIsSound(i, p, AfterUnsupported(p.state), w.requests); }
        else { WithholdKeeps(w, i, p, fault); }
      case Withheld => WithholdKeeps(w, i, p, fault);
      case Dead => SignOffKeeps(w, i, p, false, fault);
      case Unacceptable => SignOffKeeps(w, i, p, false, fault);
    }
  }

  lemma StartSeatIsWeaker(s: AccessState, explicit: bool, newID: Text, pendingTooOld: bool, sample: Sample)
    requires s.offline.None?
    ensures var a := StartSeat(s, explicit, newID, pendingTooOld, sample);
            Weaker(s, a.state) && (a.Answer? ==> ShownFrom(a.state, a.snapshot))
  {
    hide SnapshotLocked, CheckedSnapshot, SessionSnapshot, ShownFrom;
    if OfflineAuthorized(s) || !s.sessionRequired {
      SnapshotsShowWhatIsHeld(s, sample);
    } else {
      hide OfflineAuthorized;
      SnapshotsShowWhatIsHeld(if explicit then s.(sessionDisabled := false) else s, sample);
    }
  }

  lemma AskSeatKeeps(w: World, i: nat, p: Party, explicit: bool, newID: Text, pendingTooOld: bool, sample: Sample)
    requires Ready(w, i, p) && p.stage.Looked?
    ensures Kept(w, i, p, DoAskSeat(w, i, p, explicit, newID, pendingTooOld, sample))
  {
    StartSeatIsWeaker(p.state, explicit, newID, pendingTooOld, sample);
    var a := StartSeat(p.state, explicit, newID, pendingTooOld, sample);
    hide StartSeat;
    WeakerIsSound(i, p, a.state, w.requests);
    if a.Ask? { AskKeeps(w, i, p, a.state, NewSeat(a.id)); }
  }

  lemma SeatedKeeps(w: World, i: nat, p: Party, q: nat, reply: SeatReply, s: AccessState, sample: Sample)
    requires Ready(w, i, p) && p.stage.Looked? && q < |w.requests| && w.requests[q].client == i
    requires w.requests[q].outcome == SeatSaid(reply) && reply.Granted?
        && w.requests[q].generation == p.state.generation
    requires Weaker(p.state, s.(session := None)) && s.session == Some(Seat(reply))
    ensures Kept(w, i, p, Seated(w, p, q, s, sample))
  {
    assert w.requests[q].born == p.state.storageVersion;
    WeakerIsSound(i, p, s.(session := None), w.requests);
  }

  lemma TakeSeatKeeps(w: World, i: nat, p: Party, q: nat, reply: SeatReply, cancelled: bool, sample: Sample)
    requires Ready(w, i, p) && p.stage.Looked? && q < |w.requests| && w.requests[q].client == i
    requires w.requests[q].outcome == SeatSaid(reply) && w.requests[q].purpose.NewSeat?
    ensures Kept(w, i, p, DoTakeSeat(w, p, q, reply, cancelled, sample))
  {
    hide Seated;
    var id := w.requests[q].purpose.id;
    var s := FinishStart(p.state, id, reply, cancelled);
    if p.state.generation == w.requests[q].generation {
      if !cancelled && SameSeat(reply, id, 1) { SeatedKeeps(w, i, p, q, reply, s, sample); }
      else { WeakerIsSound(i, p, s, w.requests); }
    }
  }

  lemma TakeRenewalKeeps(w: World, i: nat, p: Party, q: nat, reply: SeatReply, cancelled: bool, sample: Sample)
    requires Ready(w, i, p) && p.stage.Looked? && q < |w.requests| && w.requests[q].client == i
    requires w.requests[q].outcome == SeatSaid(reply) && w.requests[q].purpose.Renewal?
    ensures Kept(w, i, p, DoTakeRenewal(w, p, q, reply, cancelled, sample))
  {
    hide Seated;
    var id, number := w.requests[q].purpose.id, w.requests[q].purpose.number;
    var s := FinishRenewal(p.state, id, number, reply, cancelled);
    if p.state.generation == w.requests[q].generation {
      if !cancelled && SameSeat(reply, id, number) && Renewing(p.state, id, number) {
        SeatedKeeps(w, i, p, q, reply, s, sample);
      } else {
        WeakerIsSound(i, p, s, w.requests);
      }
    }
  }

  lemma HearingKeeps(w: World, i: nat, p: Party, q: nat, outcome: Outcome, e: Effect)
    requires Ready(w, i, p) && Answers(w, i, q)
    ensures Ready(w.(requests := Heard(w.requests, q, outcome)), i, p)
    ensures Kept(w.(requests := Heard(w.requests, q, outcome)), i, p, e) ==> Kept(w, i, p, e)
  {
    var heard := w.(requests := Heard(w.requests, q, outcome));
    HeardGrows(w, i, q, outcome);
    SoundGrows(i, i, p, w.requests, heard.requests);
    if Kept(heard, i, p, e) { GrownTwice(i, w.requests, heard.requests, e.requests); }
  }

  lemma QuietKeeps(w: World, i: nat, p: Party, t: AccessState)
    requires Ready(w, i, p) && Weaker(p.state, t)
    ensures Kept(w, i, p, Quiet(w, Ended(p, t)))
  {
    WeakerIsSound(i, p, t, w.requests);
  }

  lemma InSectionKeeps(w: World, i: nat, p: Party, a: Action)
    requires Ready(w, i, p) && p.stage.Looked?
    ensures Kept(w, i, p, InSection(w, i, p, a))
  {
    hide DoShow, DoBeginActivation, DoAccept, DoSignOff, DoAskSeat, DoTakeSeat, DoTakeRenewal;
    hide Weaker, Sound, Grown, Honest, Versions, Heard, SnapshotLocked;
    match a
    case Show(sample) => ShowKeeps(w, i, p, sample);
    case BeginActivation(keepAccount, fault) => BeginActivationKeeps(w, i, p, keepAccount, fault);
    case BeginValidation =>
      NothingIsWeaker(w, i, p);
      QuietKeeps(w, i, p, p.state);
      if p.state.credential.Some? { AskingKeeps(w, i, p, p.state, Validation(p.state.credential.value)); }
    case Accept(q, reply, fault, sample) => AnswerKeeps(w, i, p, a);
    case SignOff(keepAccount, fault) => SignOffKeeps(w, i, p, keepAccount, fault);
    case AskSeat(explicit, newID, pendingTooOld, sample) => AskSeatKeeps(w, i, p, explicit, newID, pendingTooOld,
        sample);
    case TakeSeat(q, reply, cancelled, sample) => AnswerKeeps(w, i, p, a);
    case AskRenewal =>
      NothingIsWeaker(w, i, p);
      QuietKeeps(w, i, p, p.state);
      if p.state.session.Some? && p.state.credential.Some? {
        var s := BeginRenewal(p.state);
        RenewalIsWeaker(p.state);
        AskingKeeps(w, i, p, s, Renewal(s.session.value.id, s.session.value.pendingSequence));
      }
    case TakeRenewal(q, reply, cancelled, sample) => AnswerKeeps(w, i, p, a);
    case LeaveSeat =>
      NothingIsWeaker(w, i, p);
      QuietKeeps(w, i, p, if p.state.sessionRequired then EndSeat(p.state) else p.state);
    case _ =>
      NothingIsWeaker(w, i, p);
      QuietKeeps(w, i, p, p.state);
  }

  lemma NothingIsWeaker(w: World, i: nat, p: Party)
    requires Ready(w, i, p)
    ensures Weaker(p.state, p.state) && Weaker(p.state, EndSeat(p.state)) && Kept(w, i, p, Quiet(w, p))
  {}

  lemma RenewalIsWeaker(s: AccessState)
    requires s.session.Some?
    ensures s.offline.None? ==> Weaker(s, BeginRenewal(s))
  {}

  lemma AskingKeeps(w: World, i: nat, p: Party, s: AccessState, purpose: Purpose)
    requires Ready(w, i, p) && (p.state.offline.None? ==> Weaker(p.state, s))
    ensures Kept(w, i, p, Ask(w, i, p, s, purpose))
  {
    WeakerIsSound(i, p, s, w.requests);
    AskKeeps(w, i, p, s, purpose);
  }

  lemma AnswerKeeps(w: World, i: nat, p: Party, a: Action)
    requires Ready(w, i, p) && p.stage.Looked? && (a.Accept? || a.TakeSeat? || a.TakeRenewal?)
    ensures Kept(w, i, p, InSection(w, i, p, a))
  {
    hide DoAccept, DoTakeSeat, DoTakeRenewal;
    hide Sound, Grown, Honest, Versions, Weaker;
    NothingIsWeaker(w, i, p);
    if Answers(w, i, a.request) {
      var outcome := if a.Accept? then Said(a.reply) else SeatSaid(a.seat);
      var heard := w.(requests := Heard(w.requests, a.request, outcome));
      var e := InSection(w, i, p, a);
      HearingKeeps(w, i, p, a.request, outcome, e);
      match a
      case Accept(q, reply, fault, sample) => AcceptKeeps(heard, i, p, q, reply, fault, sample);
      case TakeSeat(q, reply, cancelled, sample) =>
        if w.requests[q].purpose.NewSeat? { TakeSeatKeeps(heard, i, p, q, reply, cancelled, sample); }
      case TakeRenewal(q, reply, cancelled, sample) =>
        if w.requests[q].purpose.Renewal? { TakeRenewalKeeps(heard, i, p, q, reply, cancelled, sample); }
    }
  }

  lemma ActKeeps(w: World, i: nat, p: Party, a: Action)
    requires Ready(w, i, p)
    ensures Kept(w, i, p, Act(w, i, p, a))
  {
    hide DoLook, DoResave, InSection;
    NothingIsWeaker(w, i, p);
    if a.Look? && p.stage.Idle? { LookKeeps(w, i, p, a.fault); }
    if a.Close? { ResetIsSound(i, p, ClearState(p.state), w.requests); }
    if a.Resave? && p.stage.Resaving? { ResaveKeeps(w, i, p, a.fault); }
    if p.stage.Looked? { InSectionKeeps(w, i, p, a); }
  }

  // ----- All clients together -----

  ghost predicate Inv(w: World) {
    && (forall k :: 0 <= k < |w.requests| ==>
          w.requests[k].client < |w.parties| && w.requests[k].born <= w.store.version)
    && (forall i :: 0 <= i < |w.parties| ==> Ready(w, i, w.parties[i]))
    && (forall n :: 0 <= n < |w.shown| ==> Truthful(w.requests, w.shown[n]))
    && (forall n :: 0 <= n < |w.taken| ==> w.taken[n].origin < |w.requests|)
    && Dated(w)
  }

  ghost predicate Dated(w: World) {
    && (forall i :: 0 <= i < |w.parties| && w.parties[i].stage.Looked? ==> w.parties[i].stage.since < w.clock)
    && (forall n :: 0 <= n < |w.shown| ==> w.shown[n].since < w.clock)
    && (forall n :: 0 <= n < |w.taken| ==> w.taken[n].since <= w.taken[n].at < w.clock)
  }

  /** A usable snapshot shows exactly the entitlements that the reply to one of this client's requests told. */
  predicate Truthful(requests: seq<Request>, s: Shown) {
    Usable(s.snapshot) ==>
      && s.origin.Some? && s.origin.value < |requests| && requests[s.origin.value].client == s.client
      && requests[s.origin.value].outcome == Told(s.snapshot.entitlements)
  }

  lemma TruthGrows(j: nat, before: seq<Request>, after: seq<Request>, s: Shown)
    requires Grown(j, before, after) && Truthful(before, s)
    ensures Truthful(after, s)
  {
    if Usable(s.snapshot) { assert SameRequest(before[s.origin.value], after[s.origin.value]); }
  }

  lemma OthersStayReady(w: World, w': World, i: nat, j: nat, p: Party)
    requires Ready(w, j, p) && i != j && Grown(i, w.requests, w'.requests) && w.store.version <= w'.store.version
    ensures Ready(w', j, p)
  {
    SoundGrows(j, i, p, w.requests, w'.requests);
  }

  lemma ClientStepKeeps(w: World, i: nat, a: Action)
    requires Inv(w) && i < |w.parties|
    ensures Inv(Step(w, ByClient(i, a)))
  {
    var e := Act(w, i, w.parties[i], a);
    ActKeeps(w, i, w.parties[i], a);
    hide Act;
    var w' := Applied(w, i, e);
    forall j | 0 <= j < |w'.parties| ensures Ready(w', j, w'.parties[j]) {
      if j != i { OthersStayReady(w, w', i, j, w.parties[j]); }
    }
    forall k | 0 <= k < |w'.requests| ensures w'.requests[k].client < |w'.parties|
        && w'.requests[k].born <= w'.store.version {
      if k < |w.requests| { assert SameRequest(w.requests[k], w'.requests[k]); }
    }
    forall n | 0 <= n < |w'.shown| ensures Truthful(w'.requests, w'.shown[n]) {
      if n < |w.shown| { TruthGrows(i, w.requests, w'.requests, w.shown[n]); }
    }
  }

  lemma StepKeeps(w: World, e: Event)
    requires Inv(w)
    ensures Inv(Step(w, e))
  {
    match e
    case ByClient(i, a) => if i < |w.parties| { ClientStepKeeps(w, i, a); }
    case Open(fault) =>
      var w' := Step(w, e);
      forall j | 0 <= j < |w'.parties| ensures Ready(w', j, w'.parties[j]) {
        if j < |w.parties| { assert Ready(w, j, w.parties[j]); }
      }
    case Outside(fault) =>
      InvalidationAdvances(w.store, fault);
      var w' := Step(w, e);
      forall j | 0 <= j < |w'.parties| ensures Ready(w', j, w'.parties[j]) { assert Ready(w, j, w.parties[j]); }
  }

  lemma {:induction false} RunKeeps(w: World, events: seq<Event>)
    requires Inv(w)
    ensures Inv(Run(w, events))
    decreases |events|
  {
    if events != [] {
      StepKeeps(w, events[0]);
      RunKeeps(Step(w, events[0]), events[1..]);
    }
  }

  /** A moment just after an invalidation: the time, the version, and how many requests had been begun before it. */
  datatype Mark = Mark(clock: nat, version: nat, requests: nat)

  ghost predicate Past(m: Mark, w: World) {
    && m.clock <= w.clock && m.version <= w.store.version && m.requests <= |w.requests|
    && (forall k :: 0 <= k < m.requests ==> w.requests[k].born < m.version)
    && (forall i :: 0 <= i < |w.parties| && w.parties[i].stage.Looked? && w.parties[i].stage.since >= m.clock ==>
          w.parties[i].state.storageVersion >= m.version)
    && (forall n :: 0 <= n < |w.shown| && w.shown[n].since >= m.clock && Usable(w.shown[n].snapshot) ==>
          w.shown[n].origin.Some? && w.shown[n].origin.value >= m.requests)
    && (forall n :: 0 <= n < |w.taken| && (w.taken[n].since >= m.clock || (w.taken[n].saved && w.taken[n].at >= m.clock)) ==>
          w.taken[n].origin >= m.requests)
  }

  /** What one action adds to the two lists lies past the mark. */
  lemma AdditionsArePast(w: World, i: nat, p: Party, e: Effect, m: Mark)
    requires Ready(w, i, p) && Kept(w, i, p, e) && m.version <= w.store.version
    requires m.requests <= |w.requests| && forall k :: 0 <= k < m.requests ==> w.requests[k].born < m.version
    requires m.clock > 0 && (p.stage.Looked? && p.stage.since >= m.clock ==> p.state.storageVersion >= m.version)
    ensures e.shown.Some? && Usable(e.shown.value.0) && Since(p) >= m.clock ==>
        e.shown.value.1.Some? && e.shown.value.1.value >= m.requests
    ensures e.taken.Some? && (Since(p) >= m.clock || e.saved) ==> e.taken.value >= m.requests
  {
    hide Sound, Fenced;
    forall k | 0 <= k < m.requests ensures e.requests[k].born < m.version {
      assert SameRequest(w.requests[k], e.requests[k]);
    }
  }

  lemma ClientStepStaysPast(w: World, i: nat, a: Action, m: Mark)
    requires Inv(w) && Past(m, w) && m.clock > 0 && i < |w.parties|
    ensures Past(m, Step(w, ByClient(i, a)))
  {
    var p := w.parties[i];
    var r := Act(w, i, p, a);
    ActKeeps(w, i, p, a);
    AdditionsArePast(w, i, p, r, m);
    hide Act, Sound, Versions, Honest;
    var w' := Applied(w, i, r);
    forall k | 0 <= k < m.requests ensures w'.requests[k].born < m.version { assert SameRequest(w.requests[k],
        w'.requests[k]); }
  }

  lemma StepStaysPast(w: World, e: Event, m: Mark)
    requires Inv(w) && Past(m, w) && m.clock > 0
    ensures Past(m, Step(w, e))
  {
    match e
    case Open(fault) =>
    case Outside(fault) => InvalidationAdvances(w.store, fault);
    case ByClient(i, a) => if i < |w.parties| { ClientStepStaysPast(w, i, a, m); }
  }

  lemma {:induction false} RunStaysPast(w: World, events: seq<Event>, m: Mark)
    requires Inv(w) && Past(m, w) && m.clock > 0
    ensures Past(m, Run(w, events)) && Inv(Run(w, events))
    decreases |events|
  {
    if events != [] {
      StepKeeps(w, events[0]);
      StepStaysPast(w, events[0], m);
      RunStaysPast(Step(w, events[0]), events[1..], m);
    }
  }

  // ----- The results -----

  lemma ReachableIsSound(store: Store, events: seq<Event>)
    ensures Inv(Run(Start(store), events))
  {
    RunKeeps(Start(store), events);
  }

  /** Whatever happens before and after: once a step has invalidated storage, no snapshot taken from a critical section
      that begins later is usable by virtue of a request begun before it, and no reply to such a request is saved,
      or installed by such a section. What a usable snapshot shows is what the reply to its request told. */
  lemma RevokedAuthorityNeverReturns(store: Store, before: seq<Event>, e: Event, after: seq<Event>)
    requires Step(Run(Start(store), before), e).store.version > Run(Start(store), before).store.version
    ensures var w0 := Run(Start(store), before); var w1 := Step(w0, e); var w2 := Run(w1, after);
            forall n :: 0 <= n < |w2.shown| && w2.shown[n].since >= w1.clock && Usable(w2.shown[n].snapshot) ==>
              && w2.shown[n].origin.Some? && |w0.requests| <= w2.shown[n].origin.value < |w2.requests|
              && w2.requests[w2.shown[n].origin.value].client == w2.shown[n].client
              && w2.requests[w2.shown[n].origin.value].outcome == Told(w2.shown[n].snapshot.entitlements)
    ensures var w0 := Run(Start(store), before); var w1 := Step(w0, e); var w2 := Run(w1, after);
            forall n :: 0 <= n < |w2.taken| && (w2.taken[n].since >= w1.clock || (w2.taken[n].saved && w2.taken[n].at >= w1.clock)) ==>
              w2.taken[n].origin >= |w0.requests|
  {
    var w0 := Run(Start(store), before);
    var w1 := Step(w0, e);
    RunKeeps(Start(store), before);
    StepKeeps(w0, e);
    var m := Mark(w1.clock, w1.store.version, |w0.requests|);
    RevocationMarks(w0, e, m);
    RunStaysPast(w1, after, m);
    hide Step;
    var w2 := Run(w1, after);
    forall n | 0 <= n < |w2.shown| && w2.shown[n].since >= w1.clock && Usable(w2.shown[n].snapshot)
      ensures w2.shown[n].origin.Some? && |w0.requests| <= w2.shown[n].origin.value < |w2.requests|
    {
      assert Truthful(w2.requests, w2.shown[n]);
    }
  }

  lemma RevocationMarks(w: World, e: Event, m: Mark)
    requires Inv(w) && Step(w, e).store.version > w.store.version
    requires m == Mark(Step(w, e).clock, Step(w, e).store.version, |w.requests|)
    ensures Past(m, Step(w, e)) && m.clock > 0
  {
    StepKeeps(w, e);
    var w' := Step(w, e);
    StepOnlyAdds(w, e);
    forall k | 0 <= k < m.requests ensures w'.requests[k].born < m.version { assert SameRequest(w.requests[k],
        w'.requests[k]); }
    assert Dated(w');
    hide Step, Ready;
  }

  lemma StepOnlyAdds(w: World, e: Event)
    requires Inv(w)
    ensures var w' := Step(w, e);
            && |w.requests| <= |w'.requests| && w.store.version <= w'.store.version
            && forall k :: 0 <= k < |w.requests| ==> SameRequest(w.requests[k], w'.requests[k])
  {
    match e
    case Open(fault) =>
    case Outside(fault) => InvalidationAdvances(w.store, fault);
    case ByClient(i, a) =>
      if i < |w.parties| {
        ActKeeps(w, i, w.parties[i], a);
        hide Act, Sound, Versions, Honest;
      }
  }

  /** The acceptance, in a section that has synchronised. */
  lemma GoodReplyInSection(w: World, i: nat, q: nat, v: Verified, save: Fault, sample: Sample)
    requires i < |w.parties| && w.parties[i].stage.Looked? && w.parties[i].state.storageVersion == w.store.version
        && Answers(w, i, q)
    requires w.requests[q].purpose.Activation? || w.requests[q].purpose.Validation?
    ensures var p := w.parties[i]; var w' := Step(w, ByClient(i, Accept(q, Good(v), save, sample)));
            var taken := p.state.generation == w.requests[q].generation && Readable(w.store, save)
                && !(w.store.kind == Protected && save.writeFails);
            && (taken ==> w'.store.credential == Some(v.saved) && w'.parties[i].state.credential == Some(v.saved)
                          && w'.parties[i].state.claims == v.claims
                              && w'.taken == w.taken + [Taken(p.stage.since, w.clock, true, q)])
            && (!taken ==> w'.store.credential == w.store.credential && w'.taken == w.taken && w'.shown == w.shown)
  {
    LooksKeepClaims(Installed(w.parties[i].state, v,
      if w.requests[q].purpose.Validation? then Some(w.requests[q].purpose.previous) else None), sample);
    hide SnapshotLocked;
  }

  lemma LooksKeepClaims(s: AccessState, sample: Sample)
    ensures SnapshotLocked(s, sample).0.claims == s.claims && SnapshotLocked(s, sample).0.credential == s.credential
  {
    hide NowWithWall, SnapshotAt, OfflineSnapshot;
  }

  /** A good reply is saved and installed exactly when its client is still in the request's generation, storage is still
      at the version the request was built at, and storage answers. Nothing else about the history matters. */
  lemma GoodReplyIsTakenIff(w: World, i: nat, q: nat, v: Verified, look: Fault, save: Fault, sample: Sample)
    requires Inv(w) && i < |w.parties| && w.parties[i].stage.Idle? && !w.parties[i].closed && Answers(w, i, q)
    requires w.requests[q].purpose.Activation? || w.requests[q].purpose.Validation?
    ensures var w1 := Step(w, ByClient(i, Look(look)));
            var w2 := Step(w1, ByClient(i, Accept(q, Good(v), save, sample)));
            var taken :=
              && Readable(w.store, look) && w.parties[i].state.generation == w.requests[q].generation
              && w.store.version == w.requests[q].born
              && Readable(w.store, save) && !(w.store.kind == Protected && save.writeFails);
            && (taken ==> w2.store.credential == Some(v.saved) && w2.parties[i].state.credential == Some(v.saved)
                          && w2.parties[i].state.claims == v.claims
                          && w2.taken == w.taken + [Taken(w.clock, w.clock + 1, true, q)])
            && (!taken ==> w2.store.credential == w.store.credential && w2.taken == w.taken && w2.shown == w.shown)
  {
    var p := w.parties[i];
    assert Ready(w, i, p);
    if p.state.generation == w.requests[q].generation { assert w.requests[q].born == p.state.storageVersion; }
    var w1 := Step(w, ByClient(i, Look(look)));
    assert w1.shown == w.shown && w1.taken == w.taken && w1.requests == w.requests;
    if Readable(w.store, look) { GoodReplyInSection(w1, i, q, v, save, sample); }
    hide InSection, Inv, Ready, SnapshotLocked, ClearAccess;
  }
}
