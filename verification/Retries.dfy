/** Lost activations can be retried (sdk/go/installed_storage.go): what a first begin writes, which later begins go through
    on it and what they send, over any run that does not clear the pending activation, restarts included. */
module Retries {
  import opened Common
  import opened Text
  import opened Access
  import opened InstalledRecord
  import opened RecordRuns

  /** begin refuses these arguments whatever the record holds. */
  predicate WellFormed(op: Op) {
    op.Begin? && (if op.principal == ByAccount then op.customerOpaque else !op.customerGiven)
  }

  /** A begin asks for the activation that this one asked for. */
  predicate SameActivation(op: Op, again: Op, id: Text) {
    && op.Begin? && again.Begin? && again.principal == op.principal && again.digest == op.digest
    && (again.operation == [] || again.operation == id)
  }

  /** Within a day of the first begin, and not before it. */
  predicate InTime(op: Op, again: Op) {
    op.Begin? && again.Begin? && op.now <= again.now < op.now + DAY
  }

  /** With nothing pending, a well-formed begin at a clock that works goes through. It sends the caller's operation ID, or
      the new one, and the record it writes holds that ID with this begin's principal, digest and time, and no authority. */
  lemma FirstBegin(r: Record, op: Op)
    requires op.Begin? && r.pending.None?
    ensures EditFor(r, op).Put? <==> WellFormed(op) && op.now >= 0 && r.generation != MAX_INT64
    ensures EditFor(r, op).Put? ==>
              var t := EditFor(r, op).record;
              && OperationSent(r, op) == (if op.operation == [] then op.newID else op.operation)
              && t.pending == Some(Pending(OperationSent(r, op), op.principal, op.digest, op.now))
              && t.generation == r.generation + 1 && t.credential.None? && t.access.None? && !HasToken(t)
              && t.installation == r.installation && t.scope == r.scope && t.provider == r.provider
  {}

  /** A begin goes through on what a first begin wrote exactly if it asks for the same activation in time; then it sends
      the same operation ID again. Too early or a day late it is refused as expired, otherwise as another activation. */
  lemma RetryLaw(r: Record, op: Op, again: Op)
    requires op.Begin? && r.pending.None? && EditFor(r, op).Put? && WellFormed(again) && again.now >= 0
    requires r.generation + 1 != MAX_INT64
    ensures var t, id := Stamped(EditFor(r, op).record), OperationSent(r, op);
            && (EditFor(t, again).Put? <==> SameActivation(op, again, id) && InTime(op, again))
            && (EditFor(t, again).Put? ==>
                  && OperationSent(t, again) == id && EditFor(t, again).record.pending == t.pending
                  && EditFor(t, again).record.generation == r.generation + 2)
            && (!InTime(op, again) ==> EditFor(t, again) == Decline(PendingExpired))
            && (InTime(op, again) && !SameActivation(op, again, id) ==> EditFor(t, again) == Decline(PendingMismatch))
  {
    FirstBegin(r, op);
  }

  lemma EpochNeverFalls(d: Device, e: Event)
    requires Inv(d)
    ensures Step(d, e).epoch >= d.epoch
  {
    PendingStaysUntilCleared(d, e);
  }

  /** Over a run that does not clear it, the pending activation is still there, exactly as it was. */
  lemma {:induction false} PendingSurvives(d: Device, events: seq<Event>)
    requires Inv(d) && PendingOf(d.medium).Some?
    ensures Run(d, events).epoch >= d.epoch
    ensures Run(d, events).epoch == d.epoch ==> PendingOf(Run(d, events).medium) == PendingOf(d.medium)
    decreases |events|
  {
    if events != [] {
      var n := Step(d, events[0]);
      StepKeeps(d, events[0]);
      PendingStaysUntilCleared(d, events[0]);
      if PendingOf(n.medium).Some? {
        PendingSurvives(n, events[1..]);
      } else {
        EpochsNeverFall(n, events[1..]);
      }
      hide Step, Inv;
    }
  }

  lemma {:induction false} EpochsNeverFall(d: Device, events: seq<Event>)
    requires Inv(d)
    ensures Run(d, events).epoch >= d.epoch
    decreases |events|
  {
    if events != [] {
      StepKeeps(d, events[0]);
      EpochNeverFalls(d, events[0]);
      EpochsNeverFall(Step(d, events[0]), events[1..]);
    }
  }

  /** The object answers and holds what the medium holds. */
  predicate Opened(d: Device) {
    && d.live.Some? && !d.live.value.poisoned && !d.live.value.closed && d.medium == Holds(d.live.value.record)
  }

  const SUCCESS := IO(true, true, true)

  /** A begin that goes through, in files that work, leaves its request and its record. */
  lemma BeginSends(d: Device, op: Op, fate: Fate)
    requires Inv(d) && Opened(d) && op.Begin? && EditFor(d.live.value.record, op).Put?
    ensures var n := Step(d, Do(op, SUCCESS, fate)); var r := d.live.value.record;
            && Opened(n) && n.live.value.record == Stamped(EditFor(r, op).record)
            && |n.sent| == |d.sent| + 1 && n.sent[..|d.sent|] == d.sent
            && n.sent[|d.sent|].operationID == OperationSent(r, op) && n.sent[|d.sent|].digest == op.digest
            && n.scope == d.scope && n.provider == d.provider
  {
    hide EditFor, OperationSent, Inv, PendingOf;
  }

  /** Whatever happens after a first begin went through - lost replies, failed begins, failed writes that leave the old
      record, crashes, restarts - as long as the pending activation has not been cleared: a begin goes through on the
      record found then exactly if it asks for the same activation in time, and it sends the same operation ID. */
  lemma LostActivationIsRetried(d: Device, op: Op, fate: Fate, between: seq<Event>, again: Op)
    requires Inv(d) && Opened(d) && op.Begin? && d.live.value.record.pending.None?
        && EditFor(d.live.value.record, op).Put?
    requires var m := Run(Step(d, Do(op, SUCCESS, fate)), between);
             Opened(m) && m.epoch == Step(d, Do(op, SUCCESS, fate)).epoch && m.live.value.record.generation != MAX_INT64
    requires WellFormed(again) && again.now >= 0
    ensures var m := Run(Step(d, Do(op, SUCCESS, fate)), between);
            var r, id := m.live.value.record, OperationSent(d.live.value.record, op);
            && (EditFor(r, again).Put? <==> SameActivation(op, again, id) && InTime(op, again))
            && (EditFor(r, again).Put? ==> OperationSent(r, again) == id)
  {
    var n := Step(d, Do(op, SUCCESS, fate));
    BeginSends(d, op, fate);
    FirstBegin(d.live.value.record, op);
    StepKeeps(d, Do(op, SUCCESS, fate));
    PendingSurvives(n, between);
    var m := Run(n, between);
    assert m.live.value.record.pending == n.live.value.record.pending by {
      hide Step, Run, Inv, EditFor, OperationSent;
    }
    hide Step, Run, Inv, Opened;
  }

  /** And a restart in between is no obstacle when the first begin was given values in range: both requests leave, with
      one operation ID. */
  lemma ActivationSurvivesRestart(d: Device, op: Op, again: Op, fate: Fate)
    requires Inv(d) && Readable(d) && Opened(d) && op.Begin? && d.live.value.record.pending.None?
    requires EditFor(d.live.value.record, op).Put? && InRange(d.live.value.record, op)
    requires d.live.value.record.generation < MAX_INT64 - 1
    requires WellFormed(again) && SameActivation(op, again, OperationSent(d.live.value.record, op)) && InTime(op, again)
    ensures var x := Run(d, [Do(op, SUCCESS, fate), Stop, Boot, Do(again, SUCCESS, fate)]);
            var n := |d.sent|;
            && |x.sent| == n + 2 && x.sent[n].operationID == x.sent[n + 1].operationID
            && x.sent[n].operationID == OperationSent(d.live.value.record, op)
            && x.sent[n].digest == x.sent[n + 1].digest == op.digest
  {
    var r := d.live.value.record;
    var a := Step(d, Do(op, SUCCESS, fate));
    BeginSends(d, op, fate);
    StepKeeps(d, Do(op, SUCCESS, fate));
    StepStaysReadable(d, Do(op, SUCCESS, fate));
    FirstBegin(r, op);
    var c := Step(Step(a, Stop), Boot);
    StepKeeps(a, Stop);
    StepKeeps(Step(a, Stop), Boot);
    assert c.medium == a.medium && Opened(c) && c.sent == a.sent;
    RetryLaw(r, op, again);
    BeginSends(c, again, fate);
    FourSteps(d, [Do(op, SUCCESS, fate), Stop, Boot, Do(again, SUCCESS, fate)]);
    hide Inv, EditFor, OperationSent, Decodable, InRange;
  }

  lemma FourSteps(d: Device, events: seq<Event>)
    requires |events| == 4
    ensures Run(d, events) == Step(Step(Step(Step(d, events[0]), events[1]), events[2]), events[3])
  {
    var a := Step(d, events[0]);
    var b := Step(a, events[1]);
    var c := Step(b, events[2]);
    assert Run(d, events) == Run(a, events[1..]);
    assert Run(a, events[1..]) == Run(b, events[1..][1..]);
    assert Run(b, events[1..][1..]) == Run(c, events[1..][1..][1..]);
    assert Run(c, events[1..][1..][1..]) == Run(Step(c, events[3]), []);
  }
}
