/** What each end of a seat request leaves behind (sdk/go/sessions.go): a lost reply can be asked for again, under the
    same ID and number, and only a reply that says so gives the seat up. */
module SeatReplies {
  import opened Common
  import opened Text
  import opened Clock
  import opened Access
  import opened Sessions

  /** The request in flight, in the generation it was sent in. */
  predicate InFlight(m: Machine, f: Flight) { m.flight == Some(f) && m.s.generation == f.generation }

  /** The machine once the request has ended with nothing accepted. */
  predicate Unaccepted(m: Machine, n: Machine) {
    n.flight.None? && n.accepted == m.accepted && n.sent == m.sent && n.used == m.used && n.ends == m.ends
  }

  function Dropped(s: AccessState, disabled: bool): AccessState { s.(session := None, sessionDisabled := disabled) }

  // ----- Renewals -----

  /** A renewal leaves exactly when a seat and a credential are there and nothing else is in flight. It asks for the number
      after the seat's, which the seat then waits for; nothing else changes. */
  lemma RenewalLeavesIff(m: Machine)
    requires Inv(m)
    ensures var n := Step(m, AskRenewal);
            if m.flight.None? && m.s.session.Some? && m.s.credential.Some? then
              var seat := m.s.session.value;
              && n.s == m.s.(session := Some(seat.(pendingSequence := seat.sequence + 1)))
              && n.flight == Some(Flight(seat.id, seat.sequence + 1, m.s.generation, m.ends))
              && |n.sent| == |m.sent| + 1 && n.sent[..|m.sent|] == m.sent
              && n.sent[|m.sent|].id == seat.id && n.sent[|m.sent|].number == seat.sequence + 1
              && n.accepted == m.accepted && Renewing(n.s, seat.id, seat.sequence + 1)
            else n == m
  {}

  /** A reply that answers the renewal puts its seat in place if the seat still waits for it, and is otherwise without
      effect. */
  lemma AnsweredRenewal(m: Machine, f: Flight, reply: SeatReply, sample: Sample)
    requires InFlight(m, f) && f.number != 1 && SameSeat(reply, f.id, f.number)
    ensures var n := Step(m, Arrive(reply, false, sample));
            if m.s.session.Some? && m.s.session.value.id == f.id && m.s.session.value.pendingSequence == f.number then
              && n.s == m.s.(session := if Now(reply.anchor, sample).Some? then Some(Seat(reply)) else None)
              && n.accepted == m.accepted[f.id := AcceptedFor(m, f.id) + [Entry(f.number, f.ends, m.ends)]]
              && n.flight.None? && n.sent == m.sent
            else n.s == m.s && Unaccepted(m, n)
  {
    var s := FinishRenewal(m.s, f.id, f.number, reply, false);
    if s.session.Some? { SeatIsLookedAt(s, sample); }
    hide Now, SessionSnapshot;
  }

  /** Any other end of a renewal: a lost reply changes nothing, an expired seat may be started anew by anyone, and every
      other refusal, or a caller who gave up, leaves the seat to an explicit start. */
  lemma UnansweredRenewal(m: Machine, f: Flight, reply: SeatReply, cancelled: bool, sample: Sample)
    requires InFlight(m, f) && f.number != 1 && (cancelled || !SameSeat(reply, f.id, f.number))
    ensures var n := Step(m, Arrive(reply, cancelled, sample));
            && Unaccepted(m, n)
            && n.s == (if cancelled then Dropped(m.s, true)
                       else match reply
                         case NoReply => m.s
                         case SeatExpired => Dropped(m.s, false).(pendingSessionID := None)
                         case _ => Dropped(m.s, true))
  {
    hide Now, SessionSnapshot;
  }

  /** A renewal whose reply is lost changes nothing; the next one repeats its seat and number, and its reply is accepted
      like the first one's would have been. */
  lemma LostRenewalIsRepeated(m: Machine, f: Flight, sample: Sample, reply: SeatReply, later: Sample)
    requires Inv(m) && InFlight(m, f) && f.number != 1 && Renewing(m.s, f.id, f.number) && m.s.credential.Some?
    requires SameSeat(reply, f.id, f.number)
    ensures var a := Step(m, Arrive(NoReply, false, sample));
            var b := Step(a, AskRenewal);
            var c := Step(b, Arrive(reply, false, later));
            && a == m.(flight := None)
            && b.s == m.s && InFlight(b, f) && |b.sent| == |m.sent| + 1
            && b.sent[|m.sent|].id == f.id && b.sent[|m.sent|].number == f.number
            && AcceptedFor(c, f.id) == AcceptedFor(m, f.id) + [Entry(f.number, f.ends, m.ends)]
            && c.s == m.s.(session := if Now(reply.anchor, later).Some? then Some(Seat(reply)) else None)
  {
    var a := Step(m, Arrive(NoReply, false, sample));
    UnansweredRenewal(m, f, NoReply, false, sample);
    FadingKeeps(m, m.s);
    RenewalLeavesIff(a);
    var b := Step(a, AskRenewal);
    assert m.s.session.value.(pendingSequence := f.number) == m.s.session.value;
    AnsweredRenewal(b, f, reply, later);
  }

  // ----- Starts -----

  /** What each end of a start makes of the state. */
  lemma StartEnds(m: Machine, f: Flight, reply: SeatReply, cancelled: bool, sample: Sample)
    requires InFlight(m, f) && f.number == 1
    ensures var n := Step(m, Arrive(reply, cancelled, sample));
            if !cancelled && SameSeat(reply, f.id, 1) then
              && n.s == m.s.(pendingSessionID := None,
                             session := if Now(reply.anchor, sample).Some? then Some(Seat(reply)) else None)
              && n.accepted == m.accepted[f.id := AcceptedFor(m, f.id) + [Entry(1, f.ends, m.ends)]]
              && n.flight.None? && n.sent == m.sent
            else
              && Unaccepted(m, n)
              && n.s == (if cancelled || reply in {CallerCancelled, SeatExpired, SeatEnded, SequenceConflict}
                         then m.s.(pendingSessionID := None) else m.s)
  {
    var s := FinishStart(m.s, f.id, reply, cancelled);
    if s.session.Some? { SeatIsLookedAt(s, sample); }
    hide Now, SessionSnapshot;
  }

  /** An explicit start, with a credential and no live seat, asks with the ID whose reply was lost. */
  lemma StartLeaves(m: Machine, id: Text, newID: Text, sample: Sample)
    requires m.flight.None? && newID !in m.used && m.s.pendingSessionID == Some(id)
    requires m.s.sessionRequired && !OfflineAuthorized(m.s) && m.s.session.None? && m.s.credential.Some?
    ensures var n := Step(m, AskSeat(true, newID, false, sample));
            && n.s == m.s.(sessionDisabled := false) && n.flight == Some(Flight(id, 1, m.s.generation, m.ends))
            && |n.sent| == |m.sent| + 1 && n.sent[|m.sent|].id == id && n.sent[|m.sent|].number == 1
            && n.accepted == m.accepted && n.ends == m.ends
  {
    hide OfflineAuthorized;
  }

  /** A start whose reply is lost changes nothing; the next explicit one asks with the same ID, and its reply gives the
      seat. */
  lemma LostStartIsRepeated(m: Machine, f: Flight, sample: Sample, newID: Text, again: Sample, reply: SeatReply,
      later: Sample)
    requires InFlight(m, f) && f.number == 1 && m.s.pendingSessionID == Some(f.id) && newID !in m.used
    requires m.s.sessionRequired && !OfflineAuthorized(m.s) && m.s.session.None? && m.s.credential.Some?
    requires SameSeat(reply, f.id, 1)
    ensures var a := Step(m, Arrive(NoReply, false, sample));
            var b := Step(a, AskSeat(true, newID, false, again));
            var c := Step(b, Arrive(reply, false, later));
            && a == m.(flight := None)
            && |b.sent| == |m.sent| + 1 && b.sent[|m.sent|].id == f.id && b.sent[|m.sent|].number == 1
            && AcceptedFor(c, f.id) == AcceptedFor(m, f.id) + [Entry(1, m.ends, m.ends)]
            && c.s == m.s.(sessionDisabled := false, pendingSessionID := None,
                           session := if Now(reply.anchor, later).Some? then Some(Seat(reply)) else None)
  {
    StartEnds(m, f, NoReply, false, sample);
    var a := Step(m, Arrive(NoReply, false, sample));
    StartLeaves(a, f.id, newID, again);
    var b := Step(a, AskSeat(true, newID, false, again));
    StartEnds(b, b.flight.value, reply, false, later);
  }

  /** Without a lost one, or once that is too long ago, a start asks with a new ID and waits for it. */
  lemma FreshStartLeaves(m: Machine, explicit: bool, newID: Text, tooOld: bool, sample: Sample)
    requires m.flight.None? && newID !in m.used && (m.s.pendingSessionID.None? || tooOld)
    requires m.s.sessionRequired && !OfflineAuthorized(m.s) && m.s.session.None? && m.s.credential.Some?
    requires explicit || !m.s.sessionDisabled
    ensures var n := Step(m, AskSeat(explicit, newID, tooOld, sample));
            && n.s == m.s.(sessionDisabled := false, pendingSessionID := Some(newID))
            && n.flight == Some(Flight(newID, 1, m.s.generation, m.ends))
  {
    hide OfflineAuthorized;
  }
}
