/** Floating seats over whole runs (sdk/go/sessions.go): one client whose operation gate lets one request run at a
    time, with EndSession, the expiry of seats and every kind of clearing free to happen while a request is in flight.
    Generated seat IDs are assumed never to repeat. */
module Sessions {
  import opened Common
  import opened Text
  import opened Clock
  import opened Storage
  import opened Access

  /** number 1 asks for a new seat, a larger one renews it; ends counts the EndSession clearings seen so far. */
  datatype Flight = Flight(id: Text, number: nat, generation: nat, ends: nat)

  /** An accepted number, with the clearings seen when it was asked for and when it was accepted. */
  datatype Entry = Entry(number: nat, asked: nat, taken: nat)

  /** A request that left, with how many numbers of its seat had been accepted by then. */
  datatype Sent = Sent(id: Text, number: nat, accepted: nat)

  datatype Machine = Machine(
    s: AccessState, flight: Option<Flight>, used: set<Text>, accepted: map<Text, seq<Entry>>, sent: seq<Sent>,
        ends: nat)

  datatype Action =
    | Synchronise(version: Option<nat>)
    | AskSeat(explicit: bool, newID: Text, pendingTooOld: bool, sample: Sample)
    | AskRenewal
    | Arrive(seat: SeatReply, cancelled: bool, sample: Sample)
    | GiveUp                                     // the clock failed before the request left
    | Settle(reply: Reply, previous: Option<StoredCredential>)
    | Clear(keepAccount: bool)
    | ExpireSeat
    | LookAtSeat(sample: Sample)
    | EndSession

  function AcceptedFor(m: Machine, id: Text): seq<Entry> { if id in m.accepted then m.accepted[id] else [] }

  function Send(m: Machine, s: AccessState, id: Text, number: nat): Machine {
    m.(s := s, flight := Some(Flight(id, number, s.generation, m.ends)), used := m.used + {id},
       sent := m.sent + [Sent(id, number, |AcceptedFor(m, id)|)])
  }

  function Record(m: Machine, s: AccessState, f: Flight): Machine {
    m.(s := s, flight := None, accepted := m.accepted[f.id := AcceptedFor(m, f.id) + [Entry(f.number, f.ends, m.ends)]])
  }

  /** The end of a seat request, start or renewal. */
  function Conclude(m: Machine, f: Flight, reply: SeatReply, cancelled: bool, sample: Sample): Machine {
    var quiet := m.(flight := None);
    if m.s.generation != f.generation then quiet
    else
      var s := if f.number == 1 then FinishStart(m.s, f.id, reply, cancelled)
          else FinishRenewal(m.s, f.id, f.number, reply, cancelled);
      var installed := !cancelled && SameSeat(reply, f.id, f.number)
          && (f.number == 1 || Renewing(m.s, f.id, f.number));
      if installed then Record(m, SessionSnapshot(s, sample).0, f) else quiet.(s := s)
  }

  /** A denial that keeps the credential and the account, when storage keeps it too. */
  function Withholding(s: AccessState): AccessState {
    ClearState(s).(credential := s.credential, account := s.account)
  }

  /** How an activation or validation leaves the state; clearing that storage did not confirm is Clear. */
  function Settled(s: AccessState, reply: Reply, previous: Option<StoredCredential>): AccessState {
    match reply
    case Good(v) => Installed(s, v, previous)
    case Unavailable(verifying) => AfterOutage(s, verifying)
    case Unsupported => if previous.Some? then AfterUnsupported(s) else Withholding(s)
    case Abandoned => s
    case Withheld => Withholding(s)
    case _ => ClearState(s)
  }

  function Step(m: Machine, a: Action): Machine {
    match a
    case Synchronise(version) => m.(s := Synced(m.s, version).0)
    case AskSeat(explicit, newID, pendingTooOld, sample) =>
      if m.flight.Some? || newID in m.used then m
      else (match StartSeat(m.s, explicit, newID, pendingTooOld, sample)
            case Answer(s, _) => m.(s := s)
            case Refuse(s, _) => m.(s := s)
            case Ask(s, id) => Send(m, s, id, 1))
    case AskRenewal =>
      if m.flight.Some? || m.s.session.None? || m.s.credential.None? then m
      else
        var s := BeginRenewal(m.s);
        Send(m, s, s.session.value.id, s.session.value.pendingSequence)
    case Arrive(reply, cancelled, sample) => if m.flight.None? then m
        else Conclude(m, m.flight.value, reply, cancelled, sample)
    case GiveUp => m.(flight := None)
    case Settle(reply, previous) => if m.flight.Some? then m else m.(s := Settled(m.s, reply, previous))
    case Clear(keepAccount) => m.(s := if keepAccount then ClearAccess(m.s) else ClearState(m.s))
    case ExpireSeat => m.(s := m.s.(session := None, pendingSessionID := None))
    case LookAtSeat(sample) => m.(s := SessionSnapshot(m.s, sample).0)
    case EndSession => if m.s.sessionRequired then m.(s := EndSeat(m.s), ends := m.ends + 1) else m
  }

  function Run(m: Machine, actions: seq<Action>): Machine
    decreases |actions|
  {
    if actions == [] then m else Run(Step(m, actions[0]), actions[1..])
  }

  /** A client that has just been opened. */
  predicate Starting(m: Machine) {
    m.s.session.None? && m.s.pendingSessionID.None? && m.flight.None? && m.accepted == map[] && m.sent == []
  }

  // ----- The invariant -----

  /** Entry k holds number k + 1, and no EndSession happened between the request and its acceptance. */
  predicate Consecutive(entries: seq<Entry>) {
    forall k :: 0 <= k < |entries| ==> entries[k].number == k + 1 && entries[k].asked == entries[k].taken
  }

  predicate SeatInStep(m: Machine) {
    m.s.session.Some? ==>
      var seat := m.s.session.value;
      && seat.id in m.used && seat.sequence == |AcceptedFor(m, seat.id)| >= 1
      && (seat.pendingSequence == 0 || seat.pendingSequence == seat.sequence + 1)
      && m.s.pendingSessionID != Some(seat.id)
  }

  predicate PendingIsNew(m: Machine) {
    m.s.pendingSessionID.Some? ==>
        m.s.pendingSessionID.value in m.used && AcceptedFor(m, m.s.pendingSessionID.value) == []
  }

  predicate FlightInStep(m: Machine) {
    m.flight.Some? ==>
      var f := m.flight.value;
      && f.id in m.used && f.number == |AcceptedFor(m, f.id)| + 1 && f.generation <= m.s.generation
      && (f.generation == m.s.generation ==> f.ends == m.ends)
      && (f.number != 1 ==> m.s.pendingSessionID != Some(f.id))
  }

  ghost predicate Inv(m: Machine) {
    && (forall id :: id in m.accepted ==> id in m.used && Consecutive(m.accepted[id]))
    && (forall k :: 0 <= k < |m.sent| ==> m.sent[k].number == m.sent[k].accepted + 1)
    && SeatInStep(m) && PendingIsNew(m) && FlightInStep(m)
  }

  /** The new state has the same seat or none, the same pending ID or none, and has not gone back a generation. */
  predicate Fades(s: AccessState, t: AccessState) {
    && t.generation >= s.generation
    && (t.session == s.session || t.session.None?)
    && (t.pendingSessionID == s.pendingSessionID || t.pendingSessionID.None?)
  }

  lemma FadingKeeps(m: Machine, t: AccessState)
    requires Inv(m) && Fades(m.s, t)
    ensures Inv(m.(s := t)) && Inv(m.(s := t, flight := None))
  {}

  lemma SettlingFades(s: AccessState, reply: Reply, previous: Option<StoredCredential>)
    ensures Fades(s, Settled(s, reply, previous))
  {}

  lemma QuietActionsFade(m: Machine, a: Action)
    requires a.Synchronise? || a.GiveUp? || a.Settle? || a.Clear? || a.ExpireSeat? || a.LookAtSeat?
    ensures var n := Step(m, a); Fades(m.s, n.s) && (n == m.(s := n.s) || n == m.(s := n.s, flight := None))
  {
    if a.LookAtSeat? { SeatLookOnlyDrops(m.s, a.sample); }
    if a.Settle? { SettlingFades(m.s, a.reply, a.previous); }
    hide SessionSnapshot, Settled;
  }

  /** The same but for the pending ID, which a seat request chooses. */
  predicate SeatFades(s: AccessState, t: AccessState) {
    t.generation >= s.generation && (t.session == s.session || t.session.None?)
  }

  lemma LookingFades(s: AccessState, sample: Sample)
    ensures SeatFades(s, CheckedSnapshot(s, sample).0)
        && CheckedSnapshot(s, sample).0.pendingSessionID == s.pendingSessionID
  {
    SeatLookOnlyDrops(s, sample);
    hide SessionSnapshot, NowWithWall, SnapshotAt, OfflineSnapshot;
  }

  /** What a seat request makes of the state before it leaves. */
  lemma StartSeatFades(s: AccessState, explicit: bool, newID: Text, pendingTooOld: bool, sample: Sample)
    ensures var start := StartSeat(s, explicit, newID, pendingTooOld, sample);
            && SeatFades(s, start.state)
            && (start.Ask? ==> start.state.pendingSessionID == Some(start.id) && (start.id == newID || s.pendingSessionID == Some(start.id)))
            && (!start.Ask? ==> start.state.pendingSessionID == s.pendingSessionID)
  {
    LookingFades(s, sample);
    var enabled := if explicit then s.(sessionDisabled := false) else s;
    SeatLookOnlyDrops(enabled, sample);
    hide SessionSnapshot, CheckedSnapshot, OfflineAuthorized;
  }

  lemma AskSeatKeeps(m: Machine, a: Action)
    requires Inv(m) && a.AskSeat?
    ensures Inv(Step(m, a))
  {
    StartSeatFades(m.s, a.explicit, a.newID, a.pendingTooOld, a.sample);
    var start := StartSeat(m.s, a.explicit, a.newID, a.pendingTooOld, a.sample);
    hide StartSeat;
  }

  lemma FinishingFades(s: AccessState, id: Text, number: nat, reply: SeatReply, cancelled: bool)
    ensures cancelled || !SameSeat(reply, id, 1) ==> Fades(s, FinishStart(s, id, reply, cancelled))
    ensures cancelled || !SameSeat(reply, id, number) || !Renewing(s, id, number) ==>
              Fades(s, FinishRenewal(s, id, number, reply, cancelled))
  {}

  /** A new seat, or the renewed one, with nothing else changed but a pending ID that is dropped. */
  predicate Seats(s: AccessState, t: AccessState, f: Flight) {
    && t.generation == s.generation
    && (t.session.Some? ==> t.session.value.id == f.id && t.session.value.sequence == f.number && t.session.value.pendingSequence == 0)
    && (if f.number == 1 then t.pendingSessionID.None? else t.pendingSessionID == s.pendingSessionID && Renewing(s, f.id, f.number))
  }

  lemma FinishingSeats(s: AccessState, f: Flight, reply: SeatReply, sample: Sample)
    requires SameSeat(reply, f.id, f.number) && (f.number == 1 || Renewing(s, f.id, f.number))
    ensures var t := if f.number == 1 then FinishStart(s, f.id, reply, false)
        else FinishRenewal(s, f.id, f.number, reply, false);
            Seats(s, SessionSnapshot(t, sample).0, f)
  {
    var t := if f.number == 1 then FinishStart(s, f.id, reply, false)
        else FinishRenewal(s, f.id, f.number, reply, false);
    SeatLookOnlyDrops(t, sample);
    hide SessionSnapshot;
  }

  lemma RecordKeeps(m: Machine, f: Flight, t: AccessState)
    requires Inv(m) && m.flight == Some(f) && m.s.generation == f.generation && Seats(m.s, t, f)
    ensures Inv(Record(m, t, f))
  {
    var before := AcceptedFor(m, f.id);
    assert Consecutive(before + [Entry(f.number, f.ends, m.ends)]);
  }

  lemma ConcludeKeeps(m: Machine, f: Flight, reply: SeatReply, cancelled: bool, sample: Sample)
    requires Inv(m) && m.flight == Some(f)
    ensures Inv(Conclude(m, f, reply, cancelled, sample))
  {
    FadingKeeps(m, m.s);
    if m.s.generation == f.generation {
      var s := if f.number == 1 then FinishStart(m.s, f.id, reply, cancelled)
          else FinishRenewal(m.s, f.id, f.number, reply, cancelled);
      FinishingFades(m.s, f.id, f.number, reply, cancelled);
      hide Inv, Fades, FinishStart, FinishRenewal, SessionSnapshot, Record, Seats;
      if !cancelled && SameSeat(reply, f.id, f.number) && (f.number == 1 || Renewing(m.s, f.id, f.number)) {
        FinishingSeats(m.s, f, reply, sample);
        RecordKeeps(m, f, SessionSnapshot(s, sample).0);
      } else {
        FadingKeeps(m, s);
      }
    }
  }

  lemma StepKeeps(m: Machine, a: Action)
    requires Inv(m)
    ensures Inv(Step(m, a))
  {
    match a
    case AskSeat(_, _, _, _) => AskSeatKeeps(m, a);
    case AskRenewal =>
    case Arrive(reply, cancelled, sample) => if m.flight.Some? { ConcludeKeeps(m, m.flight.value, reply, cancelled,
        sample); }
    case EndSession =>
    case _ =>
      QuietActionsFade(m, a);
      FadingKeeps(m, Step(m, a).s);
  }

  lemma {:induction false} RunKeeps(m: Machine, actions: seq<Action>)
    requires Inv(m)
    ensures Inv(Run(m, actions))
    decreases |actions|
  {
    if actions != [] {
      StepKeeps(m, actions[0]);
      RunKeeps(Step(m, actions[0]), actions[1..]);
    }
  }

  // ----- The results -----

  /** In every run: the numbers accepted for a seat are exactly 1, 2, 3, ... in order, and none of them answers a
      request that an EndSession came after. */
  lemma NumbersAreConsecutive(m: Machine, actions: seq<Action>)
    requires Starting(m)
    ensures var n := Run(m, actions);
            forall id, k :: id in n.accepted && 0 <= k < |n.accepted[id]| ==>
              n.accepted[id][k].number == k + 1 && n.accepted[id][k].asked == n.accepted[id][k].taken
  {
    RunKeeps(m, actions);
  }

  /** Every request carries the number after the last one accepted for its seat when it left. So a retry after a lost
      reply repeats its number, and no number is skipped. */
  lemma RequestsCarryTheNextNumber(m: Machine, actions: seq<Action>)
    requires Starting(m)
    ensures var n := Run(m, actions);
            forall k :: 0 <= k < |n.sent| ==> n.sent[k].number == n.sent[k].accepted + 1
    ensures var n := Run(m, actions);
            forall j, k :: 0 <= j < k < |n.sent| && n.sent[j].id == n.sent[k].id && n.sent[j].accepted == n.sent[k].accepted ==>
              n.sent[j].number == n.sent[k].number
  {
    RunKeeps(m, actions);
  }

  /** A reply is accepted exactly when it answers the request in flight, nothing has started a new generation, the caller
      has not cancelled, and, for a renewal, the seat still waits for it. EndSession alone rules it out. */
  lemma ReplyIsAcceptedIff(m: Machine, reply: SeatReply, cancelled: bool, sample: Sample)
    requires Inv(m) && m.flight.Some?
    ensures var f := m.flight.value;
            var n := Step(m, Arrive(reply, cancelled, sample));
            var accepts :=
              && SameSeat(reply, f.id, f.number) && !cancelled && m.s.generation == f.generation
              && (f.number == 1 || Renewing(m.s, f.id, f.number));
            && (accepts ==> n.accepted == m.accepted[f.id := AcceptedFor(m, f.id) + [Entry(f.number, m.ends, m.ends)]]
                            && (n.s.session == Some(Seat(reply)) || n.s.session.None?))
            && (!accepts ==> n.accepted == m.accepted && Fades(m.s, n.s))
  {
    var f := m.flight.value;
    var s := if f.number == 1 then FinishStart(m.s, f.id, reply, cancelled)
        else FinishRenewal(m.s, f.id, f.number, reply, cancelled);
    SeatLookOnlyDrops(s, sample);
    hide SessionSnapshot;
  }

  lemma EndedRequestIsRefused(m: Machine, reply: SeatReply, cancelled: bool, sample: Sample)
    requires Inv(m) && m.flight.Some? && m.flight.value.ends < m.ends
    ensures var n := Step(m, Arrive(reply, cancelled, sample)); n.s == m.s && n.accepted == m.accepted
  {}

  /** After EndSession nothing but an explicit start asks for a seat again; an explicit one does whenever a credential is
      there. */
  lemma EndedSeatNeedsAnExplicitStart(s: AccessState, explicit: bool, newID: Text, pendingTooOld: bool, sample: Sample)
    requires s.sessionRequired && !OfflineAuthorized(s)
    ensures var start := StartSeat(EndSeat(s), explicit, newID, pendingTooOld, sample);
            && (start.Ask? <==> explicit && s.credential.Some?)
            && (start.Ask? ==> start.id == newID)
            && (!explicit ==> start.Refuse? && start.failure == SessionRequired)
  {}
}
