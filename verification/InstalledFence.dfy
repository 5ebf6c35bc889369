/** The generation fence of an installed client over the one record it owns (sdk/go/access.go,
    sdk/go/installed_storage.go, sdk/go/installed.go). Each event is one critical section; requests are in flight
    between sections, and nothing of a process but its record outlives it. Writes may fail with any outcome, and
    processes may die at any time. What a section shows at its end is what a Show right after it would show. */
module InstalledFence {
  import opened Common
  import opened Text
  import opened Storage
  import opened Clock
  import opened Access
  import opened InstalledRecord
  import opened RecordRuns

  /** life counts processes; generation and born are the client's generation and the record's when the request was
      built. */
  datatype Request = Request(life: nat, generation: nat, born: nat)

  /** accessFrom, grantFrom and seatFrom name the requests whose replies supplied the cached access on the medium, and
      the claims and the seat in memory. taken lists the requests whose replies were committed or installed, shown those
      that the usable snapshots rest on, offline files apart. */
  datatype World = World(
    d: Device, state: AccessState, life: nat, requests: seq<Request>,
    accessFrom: Option<nat>, grantFrom: Option<nat>, seatFrom: Option<nat>, taken: seq<nat>, shown: seq<Option<nat>>)

  datatype Section =
    | Start(fingerprint: Option<Text>, provider: Option<Text>, newID: Text, io: IO, fate: Fate,
        cached: Option<(GrantClaims, TimeAnchor)>)
    | End
    | Ask(checks: bool)
    | BeginActivation(begin: Op, keepAccount: bool, checks: bool, io: IO, fate: Fate)
    | Accept(request: nat, verified: Verified, access: Option<CachedAccess>, previous: Option<StoredCredential>,
        checks: bool, io: IO, fate: Fate)
    | TakeSeat(request: nat, renewed: bool, seat: SessionRuntime, checks: bool)
    | SignOff(clearPending: bool, clearCredential: bool, keepAccount: bool, checks: bool, io: IO, fate: Fate)
    | Import(offline: OfflineRecord, checks: bool, io: IO, fate: Fate)
    | Weaken(next: AccessState, op: Op, io: IO, fate: Fate)
    | Show(checks: bool, sample: Sample, io: IO, fate: Fate)
    | Look(checks: bool)

  function AccessOn(m: Medium): Option<CachedAccess> { if m.Holds? then m.record.access else None }

  /** A transition of the storage object; q is the request a commit answers. */
  function Moved(w: World, op: Op, io: IO, fate: Fate, q: Option<nat>): World
    requires w.d.live.Some?
  {
    var d := Edited(w.d, op, io, fate);
    w.(d := d,
       accessFrom := if AccessOn(d.medium).None? then None
                     else if op.Commit? && d.medium != w.d.medium then q
                     else w.accessFrom)
  }

  /** The section's synchronisation; false means that storage did not answer. */
  function Synchronised(w: World, checks: bool): (AccessState, bool)
    requires w.d.live.Some?
  {
    var held := w.d.live.value;
    Synced(w.state, if InstalledRecord.Answers(held, IO(checks, true, true)) then Some(held.record.generation)
        else None)
  }

  function Entering(w: World, checks: bool): World
    requires w.d.live.Some?
  {
    w.(state := Synchronised(w, checks).0)
  }

  function Asked(w: World): World {
    w.(requests := w.requests + [Request(w.life, w.state.generation, w.state.storageVersion)])
  }

  function Generation(w: World): nat
    requires w.d.live.Some?
  {
    w.d.live.value.record.generation
  }

  function Opened(r: Record): AccessState {
    AccessState(0, r.generation, false, StoredCredentialOf(r), None, None, false, None, false, false, false, None, None,
        None, None, false)
  }

  /** A new process: its state comes from the record, and from cached access that could be restored. */
  function Woken(w: World, e: Section): World
    requires e.Start? && w.d.live.Some?
  {
    var r := w.d.live.value.record;
    var s := Opened(r);
    if r.access.Some? && e.cached.Some? then
      w.(state := s.(claims := Some(e.cached.value.0), anchor := Some(e.cached.value.1), transient := true),
          grantFrom := w.accessFrom)
    else w.(state := s)
  }

  function NextLife(w: World): (v: World)
    ensures v.d == w.d
  {
    w.(life := w.life + 1, grantFrom := None, seatFrom := None)
  }

  function Died(w: World): World { w.(d := w.d.(live := None)) }

  /** The record is bound to this machine before the client starts; requests of earlier processes are never answered. */
  function Bound(w: World, e: Section): World
    requires e.Start? && w.d.live.Some?
  {
    var op := Rebind(e.fingerprint, e.provider, e.newID);
    var v := NextLife(Moved(w, op, e.io, e.fate, None));
    if EditFails(w.d, op, e.io) then Died(v) else Woken(v, e)
  }

  ghost function DoStart(w: World, e: Section): World
    requires e.Start?
  {
    var booted := RecordRuns.Step(w.d, Boot);
    if w.d.live.Some? || booted.live.None? then w else Bound(w.(d := booted), e)
  }

  /** begin writes the pending record first; only then the state is cleared and the request built. */
  function DoBegin(w: World, e: Section): World
    requires e.BeginActivation? && e.begin.Begin? && w.d.live.Some?
  {
    var v := Moved(w, e.begin, e.io, e.fate, None);
    if EditFails(w.d, e.begin, e.io) then v
    else
      var cleared := if e.keepAccount then ClearAccess(w.state) else ClearState(w.state);
      Asked(v.(state := cleared.(storageVersion := Generation(v))))
  }

  /** accept: nothing happens to a reply whose request belongs to an earlier generation. */
  function DoAccept(w: World, e: Section): World
    requires e.Accept? && w.d.live.Some? && e.request < |w.requests|
  {
    if w.requests[e.request].life != w.life || w.requests[e.request].generation != w.state.generation then w
    else
      var op := if e.access.Some? then Commit(w.state.storageVersion, e.verified.saved, e.access.value)
                else CommitCredential(w.state.storageVersion, e.verified.saved);
      var v := Moved(w, op, e.io, e.fate, Some(e.request));
      var logged := if EditFails(w.d, op, e.io) && v.d.medium == w.d.medium then v
          else v.(taken := w.taken + [e.request]);
      if EditFails(w.d, op, e.io) then logged.(state := ClearState(w.state))
      else logged.(state := Installed(w.state, e.verified, e.previous), grantFrom := Some(e.request))
  }

  function DoTakeSeat(w: World, e: Section): World
    requires e.TakeSeat? && e.request < |w.requests|
  {
    if w.requests[e.request].life != w.life || w.requests[e.request].generation != w.state.generation then w
    else
      w.(state := w.state.(session := Some(e.seat),
            pendingSessionID := if e.renewed then w.state.pendingSessionID else None),
         seatFrom := Some(e.request), taken := w.taken + [e.request])
  }

  /** logout, deactivation, a denial, an account change: the state is cleared whether or not storage takes it. */
  function DoSignOff(w: World, e: Section): World
    requires e.SignOff? && w.d.live.Some?
  {
    var op := Invalidate(e.clearPending, e.clearCredential);
    var cleared := if e.keepAccount then ClearAccess(w.state) else ClearState(w.state);
    var v := Moved(w, op, e.io, e.fate, None);
    if EditFails(w.d, op, e.io) then v.(state := cleared)
    else
      v.(state := cleared.(storageVersion := Generation(v),
            credential := if e.clearCredential then None else w.state.credential))
  }

  function DoImport(w: World, e: Section): World
    requires e.Import? && w.d.live.Some?
  {
    var op := SaveOffline(w.state.storageVersion, e.offline);
    var v := Moved(w, op, e.io, e.fate, None);
    if EditFails(w.d, op, e.io) then v.(state := ClearState(w.state))
    else v.(state := ClearState(w.state).(storageVersion := Generation(v)))
  }

  predicate Usable(snapshot: Snapshot) {
    !snapshot.offlineFileMode && (snapshot.access == Online || snapshot.access == Offline)
  }

  /** checkedSnapshot; a clock failure also drops the cached access. */
  function DoShow(w: World, e: Section): World
    requires e.Show? && w.d.live.Some?
  {
    var (t, snapshot) := CheckedSnapshot(w.state, e.sample);
    var v := if w.state.anchor.Some? && t.anchor.None? then Moved(w, DropCache, e.io, e.fate, None) else w;
    v.(state := t,
       shown := if Usable(snapshot) then w.shown + [if w.state.sessionRequired then w.seatFrom else w.grantFrom]
           else w.shown)
  }

  /** The new state holds no authority the old one did not hold, at the same storage version. */
  predicate Fades(s: AccessState, t: AccessState) {
    && t.generation >= s.generation && t.storageVersion == s.storageVersion
    && (t.claims.Some? ==> t.claims == s.claims) && (t.session.Some? ==> s.session.Some?)
  }

  predicate Quiet(op: Op) { op.DropCache? || op.Checkpoint? || op.CheckpointOffline? }

  ghost function Step(w: World, e: Section): World {
    if e.Start? then DoStart(w, e)
    else if e.End? then w.(d := RecordRuns.Step(w.d, Stop))
    else if w.d.live.None? then w
    else if e.Weaken? then
      if Fades(w.state, e.next) && Quiet(e.op) then Moved(w, e.op, e.io, e.fate, None).(state := e.next) else w
    else
      var v := Entering(w, e.checks);
      if !Synchronised(w, e.checks).1 then v else InSection(v, e)
  }

  function InSection(w: World, e: Section): World
    requires w.d.live.Some?
  {
    match e
    case Ask(_) => Asked(w)
    case BeginActivation(begin, _, _, _, _) => if begin.Begin? then DoBegin(w, e) else w
    case Accept(q, _, _, _, _, _, _) => if q < |w.requests| then DoAccept(w, e) else w
    case TakeSeat(q, _, _, _) => if q < |w.requests| then DoTakeSeat(w, e) else w
    case SignOff(_, _, _, _, _, _) => DoSignOff(w, e)
    case Import(_, _, _, _) => DoImport(w, e)
    case Show(_, _, _, _) => DoShow(w, e)
    case _ => w
  }

  ghost function Run(w: World, sections: seq<Section>): World
    decreases |sections|
  {
    if sections == [] then w else Run(Step(w, sections[0]), sections[1..])
  }

  function Fresh(scope: Scope, provider: Text, installation: Identity): World {
    var d := Created(scope, provider, installation).(live := None);
    World(d, Opened(d.medium.record), 0, [], None, None, None, [], [])
  }

  // ----- What every section keeps -----

  predicate BornAt(requests: seq<Request>, o: Option<nat>, generation: nat) {
    o.Some? && o.value < |requests| && requests[o.value].born == generation
  }

  /** A request of this process is of an earlier generation, or of this one and this storage version. */
  predicate Fenced(w: World) {
    forall k :: 0 <= k < |w.requests| && w.requests[k].life == w.life ==>
      w.requests[k].generation < w.state.generation
      || (w.requests[k].generation == w.state.generation && w.requests[k].born == w.state.storageVersion)
  }

  predicate Dated(w: World) {
    forall k :: 0 <= k < |w.requests| ==>
      w.requests[k].life <= w.life && (w.d.medium.Holds? ==> w.requests[k].born <= w.d.medium.record.generation)
  }

  /** The cached access on the medium, and the authority in memory, was told at the generation it is held at. */
  predicate CacheSourced(w: World) {
    AccessOn(w.d.medium).Some? ==> BornAt(w.requests, w.accessFrom, w.d.medium.record.generation)
  }

  predicate MemorySourced(w: World) {
    w.d.live.Some? ==>
      && (w.state.claims.Some? ==> BornAt(w.requests, w.grantFrom, w.state.storageVersion))
      && (w.state.session.Some? ==> BornAt(w.requests, w.seatFrom, w.state.storageVersion))
  }

  ghost predicate Inv(w: World) {
    RecordRuns.Inv(w.d) && Dated(w) && Fenced(w) && CacheSourced(w) && MemorySourced(w)
  }

  /** Inside a section whose synchronisation succeeded. */
  ghost predicate Ready(w: World) {
    && Inv(w) && w.d.live.Some? && !w.d.live.value.poisoned && !w.d.live.value.closed
    && w.d.medium == Holds(w.d.live.value.record)
    && w.state.storageVersion == w.d.live.value.record.generation
  }

  /** A moment just after the record's generation rose: the new generation, the requests begun before, and how much had
      been taken and shown. */
  datatype Mark = Mark(generation: nat, requests: nat, taken: nat, shown: nat)

  predicate Past(m: Mark, w: World) {
    && m.requests <= |w.requests| && (forall k :: 0 <= k < m.requests ==> w.requests[k].born < m.generation)
    && (w.d.medium.Holds? ==> m.generation <= w.d.medium.record.generation)
    && (forall k :: m.taken <= k < |w.taken| ==> w.taken[k] >= m.requests)
    && (forall k :: m.shown <= k < |w.shown| ==> w.shown[k].Some? && w.shown[k].value >= m.requests)
  }

  // ----- Transitions of the record -----

  lemma EditsMoveGenerations(r: Record, op: Op)
    requires Exclusive(r) && EditFor(r, op).Put?
    ensures var t := EditFor(r, op).record;
            && t.generation >= r.generation
            && (t.access.Some? ==> t.generation == r.generation && (op.Commit? || r.access.Some?))
            && (op.Commit? || op.CommitCredential? || Quiet(op) ==> t.generation == r.generation)
  {}

  /** A commit must answer a request of the record's generation; anything else may happen at any time. */
  lemma MovedKeeps(w: World, op: Op, io: IO, fate: Fate, q: Option<nat>, m: Mark)
    requires w.d.live.Some? && RecordRuns.Inv(w.d) && Dated(w) && CacheSourced(w) && Past(m, w)
    requires op.Commit? && EditFor(w.d.live.value.record, op).Put? ==>
               BornAt(w.requests, q, w.d.live.value.record.generation)
    ensures var v := Moved(w, op, io, fate, q);
            && v.d.live.Some? && RecordRuns.Inv(v.d) && Dated(v) && CacheSourced(v) && Past(m, v)
            && v.requests == w.requests && v.state == w.state && v.taken == w.taken && v.life == w.life
            && v.grantFrom == w.grantFrom && v.seatFrom == w.seatFrom
            && (!EditFails(w.d, op, io) ==> v.d.medium == Holds(v.d.live.value.record))
  {
    var r := w.d.live.value.record;
    EditedLands(w.d, op, io, fate);
    if w.d.medium == Holds(r) && EditFor(r, op).Put? { EditsMoveGenerations(r, op); }
    hide EditFor, Edited, RecordRuns.Inv;
  }

  // ----- The sections -----

  lemma EnteringKeeps(w: World, checks: bool, m: Mark)
    requires Inv(w) && w.d.live.Some? && Past(m, w)
    ensures Inv(Entering(w, checks)) && Past(m, Entering(w, checks))
    ensures Synchronised(w, checks).1 ==> Ready(Entering(w, checks))
  {
    hide RecordRuns.SentInOrder, RecordRuns.AuthorisedInOrder, Exclusive;
  }

  /** A state without authority, of a new generation, may follow at any time. */
  lemma ClearedKeeps(w: World, s: AccessState, m: Mark)
    requires RecordRuns.Inv(w.d) && Dated(w) && Fenced(w) && CacheSourced(w) && Past(m, w)
    requires s.generation > w.state.generation && s.claims.None? && s.session.None?
    ensures Inv(w.(state := s)) && Past(m, w.(state := s))
  {
    hide RecordRuns.Inv, BornAt;
  }

  lemma FadedKeeps(w: World, s: AccessState, m: Mark)
    requires Inv(w) && Past(m, w) && Fades(w.state, s)
    ensures Inv(w.(state := s)) && Past(m, w.(state := s))
  {
    hide RecordRuns.Inv, BornAt;
  }

  lemma MovedStays(w: World, op: Op, io: IO, fate: Fate, m: Mark)
    requires Inv(w) && w.d.live.Some? && Past(m, w) && !op.Commit?
    ensures var v := Moved(w, op, io, fate, None); Inv(v) && v.d.live.Some? && Past(m, v) && v.state == w.state
  {
    MovedKeeps(w, op, io, fate, None, m);
    hide RecordRuns.Inv, Edited, Past, Dated, CacheSourced, BornAt;
  }

  lemma AskKeeps(w: World, m: Mark)
    requires Inv(w) && w.d.live.Some? && Past(m, w) && w.d.medium == Holds(w.d.live.value.record)
    requires w.state.storageVersion == w.d.live.value.record.generation
    ensures Inv(Asked(w)) && Past(m, Asked(w))
  {
    hide RecordRuns.Inv;
  }

  lemma NewLifeKeeps(w: World, e: Section, m: Mark)
    requires e.Start? && RecordRuns.Inv(w.d) && Dated(w) && CacheSourced(w) && Past(m, w)
    ensures Inv(Died(NextLife(w))) && Past(m, Died(NextLife(w)))
    ensures w.d.live.Some? && w.d.medium == Holds(w.d.live.value.record) ==>
              Inv(Woken(NextLife(w), e)) && Past(m, Woken(NextLife(w), e))
  {
    RecordRuns.StepKeeps(w.d, Stop);
    hide RecordRuns.Inv;
  }

  lemma BoundKeeps(w: World, e: Section, m: Mark)
    requires e.Start? && w.d.live.Some? && RecordRuns.Inv(w.d) && Dated(w) && CacheSourced(w) && Past(m, w)
    ensures Inv(Bound(w, e)) && Past(m, Bound(w, e))
  {
    var op := Rebind(e.fingerprint, e.provider, e.newID);
    MovedKeeps(w, op, e.io, e.fate, None, m);
    NewLifeKeeps(Moved(w, op, e.io, e.fate, None), e, m);
    hide Moved, Inv, RecordRuns.Inv, EditFails, Past, Dated, CacheSourced, Woken, NextLife, Died;
  }

  lemma StartKeeps(w: World, e: Section, m: Mark)
    requires e.Start? && Inv(w) && Past(m, w)
    ensures Inv(DoStart(w, e)) && Past(m, DoStart(w, e))
  {
    var booted := RecordRuns.Step(w.d, Boot);
    RecordRuns.StepKeeps(w.d, Boot);
    hide Bound, RecordRuns.Inv, BornAt;
    if w.d.live.None? && booted.live.Some? { BoundKeeps(w.(d := booted), e, m); }
  }

  lemma BeginKeeps(w: World, e: Section, m: Mark)
    requires e.BeginActivation? && e.begin.Begin? && Ready(w) && Past(m, w)
    ensures Inv(DoBegin(w, e)) && Past(m, DoBegin(w, e))
  {
    MovedKeeps(w, e.begin, e.io, e.fate, None, m);
    MovedStays(w, e.begin, e.io, e.fate, m);
    var v := Moved(w, e.begin, e.io, e.fate, None);
    if !EditFails(w.d, e.begin, e.io) {
      var cleared := if e.keepAccount then ClearAccess(w.state) else ClearState(w.state);
      var s := cleared.(storageVersion := Generation(v));
      ClearedKeeps(v, s, m);
      AskKeeps(v.(state := s), m);
    }
    hide Moved, RecordRuns.Inv, EditFails, Past, Dated, Fenced, CacheSourced, MemorySourced;
  }

  /** A reply that is not refused answers a request of the record's generation. */
  lemma AnswersAreOfThisGeneration(w: World, q: nat, m: Mark)
    requires Ready(w) && Past(m, w) && q < |w.requests|
    requires w.requests[q].life == w.life && w.requests[q].generation == w.state.generation
    ensures BornAt(w.requests, Some(q), w.state.storageVersion) && q >= m.requests
  {
    hide RecordRuns.Inv;
  }

  lemma TakenKeeps(w: World, q: nat, m: Mark)
    requires RecordRuns.Inv(w.d) && Dated(w) && CacheSourced(w) && Past(m, w) && q >= m.requests
    ensures var v := w.(taken := w.taken + [q]); Dated(v) && CacheSourced(v) && Past(m, v)
  {
    hide RecordRuns.Inv;
  }

  lemma InstalledKeeps(w: World, q: nat, v: Verified, previous: Option<StoredCredential>, m: Mark)
    requires Inv(w) && Past(m, w) && BornAt(w.requests, Some(q), w.state.storageVersion)
    ensures var i := w.(state := Installed(w.state, v, previous), grantFrom := Some(q)); Inv(i) && Past(m, i)
  {
    hide RecordRuns.Inv, BornAt;
  }

  lemma AcceptKeeps(w: World, e: Section, m: Mark)
    requires e.Accept? && e.request < |w.requests| && Ready(w) && Past(m, w)
    ensures Inv(DoAccept(w, e)) && Past(m, DoAccept(w, e))
  {
    if w.requests[e.request].life == w.life && w.requests[e.request].generation == w.state.generation {
      var op := if e.access.Some? then Commit(w.state.storageVersion, e.verified.saved, e.access.value)
                else CommitCredential(w.state.storageVersion, e.verified.saved);
      AnswersAreOfThisGeneration(w, e.request, m);
      MovedKeeps(w, op, e.io, e.fate, Some(e.request), m);
      var v := Moved(w, op, e.io, e.fate, Some(e.request));
      TakenKeeps(v, e.request, m);
      var logged := if EditFails(w.d, op, e.io) && v.d.medium == w.d.medium then v
          else v.(taken := w.taken + [e.request]);
      assert Inv(logged) && Past(m, logged) by {
        hide EditFails, RecordRuns.Inv, Moved, Past, Dated, CacheSourced, BornAt;
      }
      if EditFails(w.d, op, e.io) {
        ClearedKeeps(logged, ClearState(w.state), m);
      } else {
        InstalledKeeps(logged, e.request, e.verified, e.previous, m);
      }
    }
    hide Moved, Inv, EditFails, Past, Dated, Fenced, CacheSourced, MemorySourced, BornAt;
  }

  lemma TakeSeatKeeps(w: World, e: Section, m: Mark)
    requires e.TakeSeat? && e.request < |w.requests| && Ready(w) && Past(m, w)
    ensures Inv(DoTakeSeat(w, e)) && Past(m, DoTakeSeat(w, e))
  {
    if w.requests[e.request].life == w.life && w.requests[e.request].generation == w.state.generation {
      AnswersAreOfThisGeneration(w, e.request, m);
      TakenKeeps(w, e.request, m);
    }
    hide RecordRuns.Inv, Past;
  }

  lemma SignOffKeeps(w: World, e: Section, m: Mark)
    requires e.SignOff? && Ready(w) && Past(m, w)
    ensures Inv(DoSignOff(w, e)) && Past(m, DoSignOff(w, e))
  {
    var op := Invalidate(e.clearPending, e.clearCredential);
    MovedStays(w, op, e.io, e.fate, m);
    ClearedKeeps(Moved(w, op, e.io, e.fate, None), DoSignOff(w, e).state, m);
    hide Moved, RecordRuns.Inv, EditFails, Past, Dated, Fenced, CacheSourced, MemorySourced;
  }

  lemma ImportKeeps(w: World, e: Section, m: Mark)
    requires e.Import? && Ready(w) && Past(m, w)
    ensures Inv(DoImport(w, e)) && Past(m, DoImport(w, e))
  {
    var op := SaveOffline(w.state.storageVersion, e.offline);
    MovedStays(w, op, e.io, e.fate, m);
    ClearedKeeps(Moved(w, op, e.io, e.fate, None), DoImport(w, e).state, m);
    hide Moved, RecordRuns.Inv, EditFails, Past, Dated, Fenced, CacheSourced, MemorySourced;
  }

  /** A look adds nothing to the state, and a usable snapshot rests on the seat or the claims that are held. */
  lemma LooksRestOnTheState(s: AccessState, sample: Sample)
    ensures var (t, snapshot) := CheckedSnapshot(s, sample);
            Fades(s, t) && (Usable(snapshot) ==> if s.sessionRequired then s.session.Some? else s.claims.Some?)
  {
    hide Now, NowWithWall, OfflineNow;
  }

  /** What this generation's authority was told by was begun after the mark. */
  lemma HeldIsLate(w: World, o: Option<nat>, m: Mark)
    requires Ready(w) && Past(m, w) && BornAt(w.requests, o, w.state.storageVersion)
    ensures o.Some? && o.value >= m.requests
  {
    hide RecordRuns.Inv;
  }

  lemma ShownKeeps(w: World, o: Option<nat>, m: Mark)
    requires Inv(w) && Past(m, w) && o.Some? && o.value >= m.requests
    ensures var v := w.(shown := w.shown + [o]); Inv(v) && Past(m, v)
  {
    hide RecordRuns.Inv, BornAt;
  }

  lemma ShowKeeps(w: World, e: Section, m: Mark)
    requires e.Show? && Ready(w) && Past(m, w)
    ensures Inv(DoShow(w, e)) && Past(m, DoShow(w, e))
  {
    var (t, snapshot) := CheckedSnapshot(w.state, e.sample);
    var v := if w.state.anchor.Some? && t.anchor.None? then Moved(w, DropCache, e.io, e.fate, None) else w;
    MovedStays(w, DropCache, e.io, e.fate, m);
    LooksRestOnTheState(w.state, e.sample);
    FadedKeeps(v, t, m);
    if Usable(snapshot) {
      var o := if w.state.sessionRequired then w.seatFrom else w.grantFrom;
      HeldIsLate(w, o, m);
      ShownKeeps(v.(state := t), o, m);
    }
    hide Moved, RecordRuns.Inv, CheckedSnapshot, EditFails, Usable, Past, Dated, Fenced, CacheSourced, BornAt;
  }

  lemma WeakenKeeps(w: World, next: AccessState, op: Op, io: IO, fate: Fate, m: Mark)
    requires Fades(w.state, next) && Quiet(op) && w.d.live.Some? && Inv(w) && Past(m, w)
    ensures var v := Moved(w, op, io, fate, None).(state := next); Inv(v) && Past(m, v)
  {
    MovedStays(w, op, io, fate, m);
    FadedKeeps(Moved(w, op, io, fate, None), next, m);
    hide Moved, Inv, Past, Fades;
  }

  lemma EndKeeps(w: World, m: Mark)
    requires Inv(w) && Past(m, w)
    ensures var v := w.(d := RecordRuns.Step(w.d, Stop)); Inv(v) && Past(m, v)
  {
    RecordRuns.StepKeeps(w.d, Stop);
    hide RecordRuns.Inv;
  }

  lemma SectionKeeps(w: World, e: Section, m: Mark)
    requires Ready(w) && Past(m, w)
    ensures Inv(InSection(w, e)) && Past(m, InSection(w, e))
  {
    hide Moved, Inv, Past, DoAccept, DoShow, DoImport, DoSignOff, DoTakeSeat, DoBegin;
    match e
    case Ask(_) => AskKeeps(w, m);
    case BeginActivation(begin, _, _, _, _) => if begin.Begin? { BeginKeeps(w, e, m); }
    case Accept(q, _, _, _, _, _, _) => if q < |w.requests| { AcceptKeeps(w, e, m); }
    case TakeSeat(q, _, _, _) => if q < |w.requests| { TakeSeatKeeps(w, e, m); }
    case SignOff(_, _, _, _, _, _) => SignOffKeeps(w, e, m);
    case Import(_, _, _, _) => ImportKeeps(w, e, m);
    case Show(_, _, _, _) => ShowKeeps(w, e, m);
    case _ =>
  }

  lemma StepKeeps(w: World, e: Section, m: Mark)
    requires Inv(w) && Past(m, w)
    ensures Inv(Step(w, e)) && Past(m, Step(w, e))
  {
    hide Moved, RecordRuns.Inv, Past, Dated, Fenced, CacheSourced, MemorySourced, DoStart, DoAccept, DoShow, DoImport,
        DoSignOff, DoTakeSeat, DoBegin;
    if e.Start? {
      StartKeeps(w, e, m);
    } else if e.End? {
      EndKeeps(w, m);
    } else if w.d.live.None? {
    } else if e.Weaken? {
      if Fades(w.state, e.next) && Quiet(e.op) { WeakenKeeps(w, e.next, e.op, e.io, e.fate, m); }
    } else {
      var v := Entering(w, e.checks);
      EnteringKeeps(w, e.checks, m);
      if Synchronised(w, e.checks).1 { SectionKeeps(v, e, m); }
    }
  }

  lemma {:induction false} RunKeeps(w: World, sections: seq<Section>, m: Mark)
    requires Inv(w) && Past(m, w)
    ensures Inv(Run(w, sections)) && Past(m, Run(w, sections))
    decreases |sections|
  {
    if sections != [] {
      StepKeeps(w, sections[0], m);
      RunKeeps(Step(w, sections[0]), sections[1..], m);
    }
  }

  /** Sections only add requests. */
  lemma RequestsStay(w: World, e: Section)
    ensures w.requests <= Step(w, e).requests
  {
    hide Edited, EditFails, CheckedSnapshot, Usable;
  }

  lemma FreshIsSound(scope: Scope, provider: Text, installation: Identity)
    ensures var w := Fresh(scope, provider, installation); Inv(w) && Past(Mark(0, 0, 0, 0), w)
  {}

  function GenerationOn(m: Medium): nat { if m.Holds? then m.record.generation else 0 }

  predicate Later(o: Option<nat>, requests: nat) { o.Some? && o.value >= requests }

  ghost function MarkAfter(w: World, e: Section): Mark {
    var v := Step(w, e);
    Mark(GenerationOn(v.d.medium), |w.requests|, |v.taken|, |v.shown|)
  }

  lemma MarkIsPast(w: World, e: Section)
    requires Inv(w) && w.d.medium.Holds? && GenerationOn(Step(w, e).d.medium) > GenerationOn(w.d.medium)
    ensures Past(MarkAfter(w, e), Step(w, e))
  {
    RequestsStay(w, e);
    hide Step, RecordRuns.Inv, Fenced, CacheSourced, MemorySourced;
  }

  // ----- The results -----

  /** Once a section has left a record of a higher generation on the medium - signing off, withholding, a new
      activation, an import, another machine - no reply to a request begun before is ever taken again, no usable
      snapshot rests on one, and none supplied the cached access on the medium: in this process or any later one,
      whatever writes fail. */
  lemma RevokedAuthorityNeverReturns(scope: Scope, provider: Text, installation: Identity, before: seq<Section>,
      e: Section, after: seq<Section>)
    ensures var w0 := Run(Fresh(scope, provider, installation), before);
            var w1 := Step(w0, e);
            var w2 := Run(w1, after);
            w0.d.medium.Holds? && GenerationOn(w1.d.medium) > GenerationOn(w0.d.medium) ==>
              && (forall k :: |w1.taken| <= k < |w2.taken| ==> w2.taken[k] >= |w0.requests|)
              && (forall k :: |w1.shown| <= k < |w2.shown| ==> Later(w2.shown[k], |w0.requests|))
              && (AccessOn(w2.d.medium).Some? ==> Later(w2.accessFrom, |w0.requests|))
  {
    var start := Fresh(scope, provider, installation);
    var w0 := Run(start, before);
    var w1 := Step(w0, e);
    FreshIsSound(scope, provider, installation);
    RunKeeps(start, before, Mark(0, 0, 0, 0));
    StepKeeps(w0, e, Mark(0, 0, 0, 0));
    if w0.d.medium.Holds? && GenerationOn(w1.d.medium) > GenerationOn(w0.d.medium) {
      MarkIsPast(w0, e);
      RunKeeps(w1, after, MarkAfter(w0, e));
      hide RecordRuns.Inv, Step;
    }
  }

  lemma RaisingEdits(r: Record, op: Op)
    requires op.Invalidate? || op.Begin? || op.SaveOffline?
    ensures !EditFor(r, op).Check? && (EditFor(r, op).Put? ==> EditFor(r, op).record.generation == r.generation + 1)
  {}

  /** The record transition of a section that clears authority. */
  function Clearing(w: World, e: Section): Op
    requires e.SignOff? || e.BeginActivation? || e.Import?
  {
    if e.SignOff? then Invalidate(e.clearPending, e.clearCredential)
    else if e.Import? then SaveOffline(w.state.storageVersion, e.offline)
    else e.begin
  }

  /** What raises it: when storage takes a sign-off, a new activation or an import, the record's generation rises by
      one, and so it does when such a write is reported as failed and yet arrived. */
  lemma ClearingsRaise(w: World, e: Section)
    requires Ready(w) && (e.SignOff? || (e.BeginActivation? && e.begin.Begin?) || e.Import?)
    ensures var v := InSection(w, e);
            !EditFails(w.d, Clearing(w, e), e.io) || (v.d.medium.Holds? && v.d.medium != w.d.medium) ==>
              v.d.medium.Holds? && GenerationOn(v.d.medium) == GenerationOn(w.d.medium) + 1
  {
    var op := Clearing(w, e);
    EditedLands(w.d, op, e.io, e.fate);
    RaisingEdits(w.d.live.value.record, op);
    assert InSection(w, e).d == Edited(w.d, op, e.io, e.fate) by { hide Edited, EditFails, Ready; }
    hide Inv, Edited, EditFails, EditFor, InSection, Clearing;
  }

  /** And the fence refuses nothing else: when the files answer, a reply is taken exactly if its request is of this
      process and its generation. */
  lemma ReplyIsTakenIff(w: World, e: Section)
    requires Ready(w) && e.Accept? && e.request < |w.requests| && e.io == IO(true, true, true)
    ensures DoAccept(w, e).taken == w.taken + [e.request] <==>
              w.requests[e.request].life == w.life && w.requests[e.request].generation == w.state.generation
    ensures DoAccept(w, e).taken != w.taken ==>
              && w.requests[e.request].born == w.state.storageVersion
              && DoAccept(w, e).state == Installed(w.state, e.verified, e.previous)
  {
    hide RecordRuns.Inv, Dated, CacheSourced, MemorySourced;
    assert |w.taken + [e.request]| == |w.taken| + 1;
  }

  lemma StartsWeaken(s: AccessState, explicit: bool, newID: Text, tooOld: bool, sample: Sample)
    ensures Fades(s, StartSeat(s, explicit, newID, tooOld, sample).state)
  {
    LooksRestOnTheState(s, sample);
    SeatLookOnlyDrops(if explicit then s.(sessionDisabled := false) else s, sample);
    hide CheckedSnapshot, SessionSnapshot, Usable, OfflineAuthorized;
  }

  /** The ends of requests that take no reply are among those a weakening stands for; so is every other clearing. */
  lemma ClearingsWeaken(s: AccessState, verifying: bool)
    ensures Fades(s, AfterOutage(s, verifying)) && Fades(s, AfterUnsupported(s)) && Fades(s, EndSeat(s))
    ensures Fades(s, ClearState(s)) && Fades(s, ClearState(s).(credential := s.credential, account := s.account))
  {}

  lemma UntakenSeatsWeaken(s: AccessState, id: Text, reply: SeatReply, cancelled: bool)
    requires !SameSeat(reply, id, 1) || cancelled
    ensures Fades(s, FinishStart(s, id, reply, cancelled))
  {
    hide SameSeat, Seat;
  }

  lemma UntakenRenewalsWeaken(s: AccessState, id: Text, number: nat, reply: SeatReply, cancelled: bool)
    requires !SameSeat(reply, id, number) || cancelled
    ensures s.session.Some? ==> Fades(s, BeginRenewal(s))
    ensures Fades(s, FinishRenewal(s, id, number, reply, cancelled))
  {
    hide SameSeat, Seat, Renewing;
  }

  /** A section that asks builds its request at the present generation and version; one that shows logs exactly the
      usable snapshots, with the request behind the authority in charge. */
  lemma SectionsAskAndShow(w: World, e: Section)
    requires w.d.live.Some?
    ensures e.Ask? ==>
              InSection(w, e) ==
              w.(requests := w.requests + [Request(w.life, w.state.generation, w.state.storageVersion)])
    ensures e.Show? ==>
              InSection(w, e).shown ==
                if Usable(CheckedSnapshot(w.state, e.sample).1) then
                  w.shown + [if w.state.sessionRequired then w.seatFrom else w.grantFrom]
                else w.shown
    ensures e.BeginActivation? && e.begin.Begin? ==>
              |InSection(w, e).requests| == |w.requests| + if EditFails(w.d, e.begin, e.io) then 0 else 1
    ensures e.TakeSeat? && e.request < |w.requests| ==>
              (InSection(w, e).taken == w.taken + [e.request] <==>
                 w.requests[e.request].life == w.life && w.requests[e.request].generation == w.state.generation)
  {
    assert |w.taken + [0]| == |w.taken| + 1;
    hide CheckedSnapshot, Usable, Edited, EditFails, ClearAccess;
  }

  /** A process starts exactly if the medium can be read and the record could be bound to this machine. Its client then
      knows the record's generation and credential, and the cached grant exactly if one is there and was restored. */
  lemma ProcessStartsIff(w: World, e: Section)
    requires e.Start? && RecordRuns.Inv(w.d) && w.d.live.None?
    ensures var readable := w.d.medium.Holds? && Decodable(w.d.medium.record, w.d.scope, w.d.provider);
            var booted := w.d.(live := if readable then Some(Held(w.d.medium.record, false, false)) else None);
            var v := Step(w, e);
            && (v.d.live.Some? <==>
                  readable && !EditFails(booted, Rebind(e.fingerprint, e.provider, e.newID), e.io))
            && (v.d.live.Some? ==>
                  var r := v.d.live.value.record;
                  && v.life == w.life + 1 && v.state.storageVersion == r.generation && v.state.session.None?
                  && v.state.credential == StoredCredentialOf(r)
                  && v.state.claims == (if r.access.Some? && e.cached.Some? then Some(e.cached.value.0) else None))
  {
    if RecordRuns.Step(w.d, Boot).live.Some? {
      EditedLands(RecordRuns.Step(w.d, Boot), Rebind(e.fingerprint, e.provider, e.newID), e.io, e.fate);
    }
    hide RecordRuns.Inv, Edited, EditFails, Decodable, StoredCredentialOf, EditFor;
  }
}
