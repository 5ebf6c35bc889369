/** How the C++ client shuts down (sdk/cpp/src/persistent_client.cpp): any number of calling threads, any number of
    threads that close, and the worker, interleaved between their locks. Waiting on a condition variable is modelled as
    it is: a sleeper runs again only when it is notified, a notification comes after the lock that guarded the change was
    released, and a worker that falls asleep keeps the lock until it does. Closing from the worker thread itself is left
    out. */
module CloseProtocol {
  import opened Common

  /** Leaving: the call is counted out but the others have not been notified yet. */
  datatype CallerPc = Away | Calling | Leaving

  /** The closing thread announces, joins the worker, waits for the calls to drain, releases storage and credential,
      publishes that it is done, and tells the threads that await it. */
  datatype CloserPc = Outside | Announcing | Joining | Draining(awake: bool) | Releasing | Publishing | Telling | Awaiting(awake: bool) | Returned

  /** Blocking: the worker has found nothing to do and holds the lock until it sleeps. */
  datatype WorkerPc =
    | Absent | Top | Observed(epoch: nat) | Refreshing | Deciding(epoch: nat) | Blocking(epoch: nat)
    | Sleeping(epoch: nat, awake: bool) | Exited

  /** owner is the closer that set closing. */
  datatype System = System(
    persistent: bool, failed: bool, closing: bool, closed: bool, cancelled: bool, released: bool, active: nat,
        started: bool, epoch: nat,
    callers: seq<CallerPc>, closers: seq<CloserPc>, worker: WorkerPc, owner: Option<nat>)

  datatype Event =
    | BeginCall(i: nat)
    | EndCall(i: nat)
    | CallNotifies(i: nat)
    | StartWorker
    | WakeWorker                       // a new epoch, and its notification, neither under the lock
    | EnterClose(j: nat)
    | CloserSteps(j: nat)
    | WorkerSteps(refresh: bool, checkpointFails: bool)
    | SpuriousWake                     // every sleeper may run again without a notification, as after a timeout
    | PersistenceFails

  // ----- Steps -----

  function WakeCloser(pc: CloserPc): CloserPc {
    match pc
    case Draining(_) => Draining(true)
    case Awaiting(_) => Awaiting(true)
    case _ => pc
  }

  function WakeAll(closers: seq<CloserPc>): (r: seq<CloserPc>)
    ensures |r| == |closers| && forall k :: 0 <= k < |r| ==> r[k] == WakeCloser(closers[k])
  {
    seq(|closers|, k requires 0 <= k < |closers| => WakeCloser(closers[k]))
  }

  function NotifyAll(s: System): (t: System)
    ensures t.callers == s.callers && t.closing == s.closing
  {
    s.(closers := WakeAll(s.closers), worker := if s.worker.Sleeping? then s.worker.(awake := true) else s.worker)
  }

  function AtCaller(s: System, i: nat, pc: CallerPc): System
    requires i < |s.callers|
  {
    s.(callers := s.callers[i := pc])
  }

  function AtCloser(s: System, j: nat, pc: CloserPc): (t: System)
    requires j < |s.closers|
    ensures t.callers == s.callers && t.closing == s.closing
  {
    s.(closers := s.closers[j := pc])
  }

  predicate WorkerGone(s: System) { s.worker.Absent? || s.worker.Exited? }

  function DoEnterClose(s: System, j: nat): (t: System)
    requires j < |s.closers|
    ensures t.callers == s.callers && (s.closing ==> t.closing)
  {
    if s.closed then AtCloser(s, j, Returned)
    else if s.closing then AtCloser(s, j, Awaiting(true))
    else AtCloser(s, j, Announcing).(closing := true, cancelled := true, owner := Some(j))
  }

  /** Where a closer goes from here, or where it is if it has to wait. */
  function NextPc(s: System, pc: CloserPc): CloserPc {
    match pc
    case Announcing => Joining
    case Joining => if WorkerGone(s) then Draining(true) else Joining
    case Draining(awake) => if !awake then pc else if s.active == 0 then Releasing else Draining(false)
    case Releasing => Publishing
    case Publishing => Telling
    case Telling => Returned
    case Awaiting(awake) => if !awake then pc else if s.closed then Returned else Awaiting(false)
    case _ => pc
  }

  function DoCloserStep(s: System, j: nat): (t: System)
    requires j < |s.closers|
    ensures t.callers == s.callers && (s.closing ==> t.closing)
  {
    var pc := s.closers[j];
    var next := NextPc(s, pc);
    if next == pc then s
    else
      var told := if pc.Announcing? || pc.Telling? then NotifyAll(s) else s;
      AtCloser(told, j, next).(released := s.released || pc.Releasing?, closed := s.closed || pc.Publishing?)
  }

  /** Where the worker goes from here, or where it is if it has to wait. */
  function NextWorker(w: WorkerPc, stops: bool, cancelled: bool, epoch: nat, refresh: bool, fails: bool): WorkerPc {
    match w
    case Top => if cancelled then Exited else Observed(epoch)
    case Observed(seen) => if fails then Exited else if refresh && !cancelled then Refreshing else Deciding(seen)
    case Refreshing => Top
    case Deciding(seen) => if stops then Exited else if epoch != seen then Top else Blocking(seen)
    case Blocking(seen) => Sleeping(seen, false)
    case Sleeping(seen, awake) => if !awake then w else if stops || epoch != seen then Top else Blocking(seen)
    case _ => w
  }

  /** A checkpoint that fails ends the worker, and cancels it. */
  function DoWorkerStep(s: System, refresh: bool, checkpointFails: bool): (t: System)
    ensures t.callers == s.callers && t.closing == s.closing
  {
    s.(worker := NextWorker(s.worker, s.cancelled || s.closing, s.cancelled, s.epoch, refresh, checkpointFails),
       cancelled := s.cancelled || (s.worker.Observed? && checkpointFails))
  }

  /** Nobody is inside the section that is left by falling asleep. */
  predicate LockFree(s: System) { !s.worker.Blocking? }

  function Step(s: System, e: Event): System {
    match e
    case BeginCall(i) =>
      if i < |s.callers| && s.callers[i].Away? && LockFree(s) && !s.closing && !s.closed && !s.failed
          then AtCaller(s, i, Calling).(active := s.active + 1) else s
    case EndCall(i) =>
      if i < |s.callers| && s.callers[i].Calling? && LockFree(s) then
        AtCaller(s, i, Leaving).(active := if s.active > 0 then s.active - 1 else 0)
      else s
    case CallNotifies(i) => if i < |s.callers| && s.callers[i].Leaving? then AtCaller(NotifyAll(s), i, Away) else s
    case StartWorker => if s.persistent && !s.started && !s.closing && !s.closed then s.(started := true, worker := Top)
        else s
    case WakeWorker => NotifyAll(s.(epoch := s.epoch + 1))
    case EnterClose(j) => if j < |s.closers| && s.closers[j].Outside? && LockFree(s) then DoEnterClose(s, j) else s
    case CloserSteps(j) => if j < |s.closers| then DoCloserStep(s, j) else s
    case WorkerSteps(refresh, checkpointFails) => DoWorkerStep(s, refresh, checkpointFails)
    case SpuriousWake => NotifyAll(s)
    case PersistenceFails => s.(failed := true)
  }

  function Run(s: System, events: seq<Event>): System
    decreases |events|
  {
    if events == [] then s else Run(Step(s, events[0]), events[1..])
  }

  predicate Starting(s: System) {
    && !s.closing && !s.closed && !s.cancelled && !s.released && s.active == 0 && !s.started && s.worker.Absent?
        && s.owner.None?
    && (forall i :: 0 <= i < |s.callers| ==> s.callers[i].Away?)
    && (forall j :: 0 <= j < |s.closers| ==> s.closers[j].Outside?)
  }

  // ----- The object -----

  /** The fields the locks guard, and the critical sections that change them. */
  class ClientState {
    const persistent: bool
    var activeCalls: nat
    var closing: bool
    var closed: bool
    var workerStarted: bool
    var workerCancelled: bool
    var persistenceFailed: bool

    /** The object's fields are those of the system. */
    predicate Reflects(s: System)
      reads this
    {
      && s.persistent == persistent && s.active == activeCalls && s.closing == closing && s.closed == closed
      && s.started == workerStarted && s.cancelled == workerCancelled && s.failed == persistenceFailed
    }

    constructor (persistent: bool)
      ensures this.persistent == persistent && activeCalls == 0 && !closing && !closed && !workerStarted
          && !workerCancelled && !persistenceFailed
    {
      this.persistent, activeCalls, closing, closed, workerStarted, workerCancelled, persistenceFailed := persistent, 0,
          false, false, false, false, false;
    }

    method BeginCall(ghost s: System, ghost i: nat) returns (admitted: bool)
      requires Reflects(s) && LockFree(s) && i < |s.callers| && s.callers[i].Away?
      modifies this
      ensures Reflects(Step(s, Event.BeginCall(i))) && admitted == Step(s, Event.BeginCall(i)).callers[i].Calling?
    {
      if closing || closed { return false; }
      if persistenceFailed { return false; }
      activeCalls := activeCalls + 1;
      return true;
    }

    method EndCall(ghost s: System, ghost i: nat)
      requires Reflects(s) && LockFree(s) && i < |s.callers| && s.callers[i].Calling?
      modifies this
      ensures Reflects(Step(s, Event.EndCall(i)))
    {
      hide NotifyAll, DoEnterClose, DoCloserStep, DoWorkerStep;
      if activeCalls > 0 { activeCalls := activeCalls - 1; }
    }

    method StartWorker(ghost s: System) returns (launches: bool)
      requires Reflects(s)
      modifies this
      ensures Reflects(Step(s, Event.StartWorker)) && (launches <==> Step(s, Event.StartWorker) != s)
    {
      if !persistent || workerStarted || closing || closed { return false; }
      workerStarted := true;
      return true;
    }

    /** The first section of close. Some(false) owns the shutdown, Some(true) awaits it, None has nothing to do. */
    method EnterClose(ghost s: System, ghost j: nat) returns (r: Option<bool>)
      requires Reflects(s) && LockFree(s) && j < |s.closers| && s.closers[j].Outside?
      modifies this
      ensures Reflects(Step(s, Event.EnterClose(j)))
      ensures Step(s, Event.EnterClose(j)).closers[j] == match r case None => Returned case Some(waits) => if waits
          then Awaiting(true) else Announcing
    {
      if closed { return None; }
      if closing { return Some(true); }
      closing := true;
      workerCancelled := true;
      return Some(false);
    }

    method Publish(ghost s: System, ghost j: nat)
      requires Reflects(s) && j < |s.closers| && s.closers[j].Publishing?
      modifies this
      ensures Reflects(Step(s, CloserSteps(j)))
    {
      closed := true;
    }
  }

  // ----- What every step keeps -----

  function Busy(callers: seq<CallerPc>): nat {
    if callers == [] then 0 else (if callers[0].Calling? then 1 else 0) + Busy(callers[1..])
  }

  lemma {:induction false} BusyUpdate(callers: seq<CallerPc>, i: nat, pc: CallerPc)
    requires i < |callers|
    ensures Busy(callers[i := pc]) == Busy(callers) - (if callers[i].Calling? then 1 else 0) + (if pc.Calling? then 1
        else 0)
  {
    if i == 0 {
      assert callers[i := pc][1..] == callers[1..];
    } else {
      BusyUpdate(callers[1..], i - 1, pc);
      assert callers[i := pc][1..] == callers[1..][i - 1 := pc];
    }
  }

  lemma {:induction false} BusyBounds(callers: seq<CallerPc>, i: nat)
    requires i < |callers| && callers[i].Calling?
    ensures Busy(callers) > 0
  {
    if i > 0 { BusyBounds(callers[1..], i - 1); }
  }

  predicate Owning(pc: CloserPc) {
    pc.Announcing? || pc.Joining? || pc.Draining? || pc.Releasing? || pc.Publishing? || pc.Telling? || pc.Returned?
  }

  /** Where the shutdown is; Outside while nobody has begun it. */
  function OwnerPc(s: System): CloserPc {
    if s.owner.Some? && s.owner.value < |s.closers| then s.closers[s.owner.value] else Outside
  }

  predicate OwnerInStep(s: System) {
    var pc := OwnerPc(s);
    && (s.owner.Some? ==> s.owner.value < |s.closers|)
    && (s.closing <==> s.owner.Some?) && (s.closing <==> Owning(pc)) && (s.closing ==> s.cancelled && LockFree(s))
    && (Owning(pc) && !pc.Announcing? && !pc.Joining? ==> WorkerGone(s))
    && (pc.Releasing? || pc.Publishing? || pc.Telling? || pc.Returned? ==> s.active == 0)
    && (s.released <==> pc.Publishing? || pc.Telling? || pc.Returned?)
    && (s.closed <==> pc.Telling? || pc.Returned?)
  }

  predicate OthersInStep(s: System) {
    forall j :: 0 <= j < |s.closers| && s.owner != Some(j) ==>
      && (s.closers[j].Outside? || s.closers[j].Awaiting? || s.closers[j].Returned?)
      && (s.closers[j].Awaiting? ==> s.closing) && (s.closers[j].Returned? ==> s.closed)
  }

  /** A sleeper whose condition has come true is about to be notified. */
  predicate NoLostWakeup(s: System) {
    && (s.worker.Sleeping? && !s.worker.awake && s.closing ==> OwnerPc(s).Announcing?)
    && (OwnerPc(s) == Draining(false) && s.active == 0 ==> exists i :: 0 <= i < |s.callers| && s.callers[i].Leaving?)
    && (forall j :: 0 <= j < |s.closers| && s.closers[j] == Awaiting(false) && s.closed ==> OwnerPc(s).Telling?)
  }

  predicate Inv(s: System) {
    && s.active == Busy(s.callers) && (s.started <==> !s.worker.Absent?)
    && OwnerInStep(s) && OthersInStep(s) && NoLostWakeup(s)
  }

  lemma NotifyKeeps(s: System)
    requires Inv(s)
    ensures Inv(NotifyAll(s)) && OwnerPc(NotifyAll(s)) == WakeCloser(OwnerPc(s))
  {}

  lemma CallerKeeps(s: System, e: Event)
    requires Inv(s) && (e.BeginCall? || e.EndCall? || e.CallNotifies?)
    ensures Inv(Step(s, e))
  {
    NotifyKeeps(s);
    if e.i < |s.callers| {
      BusyUpdate(s.callers, e.i, Calling);
      BusyUpdate(s.callers, e.i, Leaving);
      BusyUpdate(s.callers, e.i, Away);
      if s.callers[e.i].Calling? { BusyBounds(s.callers, e.i); }
      var t := Step(s, e);
      if e.EndCall? && t != s { assert t.callers[e.i].Leaving?; }
      hide Busy, WakeAll;
    }
  }

  lemma EnterKeeps(s: System, j: nat)
    requires Inv(s) && LockFree(s) && j < |s.closers| && s.closers[j].Outside?
    ensures Inv(DoEnterClose(s, j))
  {
    hide Busy;
  }

  /** The owner moves on after its notification. */
  lemma TellingKeeps(s: System, j: nat)
    requires Inv(s) && j < |s.closers| && (s.closers[j].Announcing? || s.closers[j].Telling?)
    ensures Inv(DoCloserStep(s, j))
  {
    NotifyKeeps(s);
    hide Busy, WakeAll;
  }

  /** The owner moves on by itself. */
  lemma AdvancingKeeps(s: System, j: nat)
    requires Inv(s) && j < |s.closers| && (s.closers[j].Joining? || s.closers[j].Releasing? || s.closers[j].Publishing?)
    ensures Inv(DoCloserStep(s, j))
  {
    hide Busy, NotifyAll;
  }

  lemma WaitingKeeps(s: System, j: nat)
    requires Inv(s) && j < |s.closers| && (s.closers[j].Draining? || s.closers[j].Awaiting?)
    ensures Inv(DoCloserStep(s, j))
  {
    hide Busy, NotifyAll;
  }

  lemma CloserKeeps(s: System, j: nat)
    requires Inv(s) && j < |s.closers|
    ensures Inv(DoCloserStep(s, j))
  {
    match s.closers[j]
    case Announcing => TellingKeeps(s, j);
    case Telling => TellingKeeps(s, j);
    case Joining => AdvancingKeeps(s, j);
    case Releasing => AdvancingKeeps(s, j);
    case Publishing => AdvancingKeeps(s, j);
    case Draining(_) => WaitingKeeps(s, j);
    case Awaiting(_) => WaitingKeeps(s, j);
    case Outside =>
    case Returned =>
    hide Inv, NotifyAll, AtCloser;
  }

  lemma WorkerKeeps(s: System, refresh: bool, checkpointFails: bool)
    requires Inv(s)
    ensures Inv(DoWorkerStep(s, refresh, checkpointFails))
  {
    hide Busy;
  }

  lemma CountersKeep(s: System, epoch: nat)
    requires Inv(s)
    ensures Inv(s.(epoch := epoch)) && Inv(s.(failed := true))
  {
    hide Busy;
  }

  lemma FlagsKeep(s: System, e: Event)
    requires Inv(s) && (e.StartWorker? || e.WakeWorker? || e.SpuriousWake? || e.PersistenceFails?)
    ensures Inv(Step(s, e))
  {
    CountersKeep(s, s.epoch + 1);
    NotifyKeeps(s);
    NotifyKeeps(s.(epoch := s.epoch + 1));
    hide NotifyAll, Busy;
    if !e.StartWorker? { hide Inv; }
  }

  lemma StepKeeps(s: System, e: Event)
    requires Inv(s)
    ensures Inv(Step(s, e))
  {
    hide Inv, NotifyAll, DoEnterClose, DoCloserStep, DoWorkerStep, AtCaller;
    match e
    case BeginCall(_) => CallerKeeps(s, e);
    case EndCall(_) => CallerKeeps(s, e);
    case CallNotifies(_) => CallerKeeps(s, e);
    case EnterClose(j) => if j < |s.closers| && s.closers[j].Outside? && LockFree(s) { EnterKeeps(s, j); }
    case CloserSteps(j) => if j < |s.closers| { CloserKeeps(s, j); }
    case WorkerSteps(refresh, checkpointFails) => WorkerKeeps(s, refresh, checkpointFails);
    case _ => FlagsKeep(s, e);
  }

  lemma {:induction false} StartKeeps(s: System)
    requires Starting(s)
    ensures Inv(s)
  {
    NobodyIsBusy(s.callers);
  }

  lemma {:induction false} NobodyIsBusy(callers: seq<CallerPc>)
    requires forall i :: 0 <= i < |callers| ==> callers[i].Away?
    ensures Busy(callers) == 0
  {
    if callers != [] { NobodyIsBusy(callers[1..]); }
  }

  lemma {:induction false} RunKeeps(s: System, events: seq<Event>)
    requires Inv(s)
    ensures Inv(Run(s, events))
    decreases |events|
  {
    if events != [] {
      StepKeeps(s, events[0]);
      RunKeeps(Step(s, events[0]), events[1..]);
    }
  }

  // ----- Safety -----

  /** In every interleaving: once storage and credential are released the worker has exited or never was and no call is
      running, and a close that has returned returned after the release. */
  lemma ReleaseIsLast(s: System, events: seq<Event>)
    requires Starting(s)
    ensures var t := Run(s, events);
            && (t.released ==> WorkerGone(t) && t.active == 0 && t.closing && forall i :: 0 <= i < |t.callers| ==> !t.callers[i].Calling?)
            && (forall j :: 0 <= j < |t.closers| && t.closers[j].Returned? ==> t.released && t.closed)
  {
    StartKeeps(s);
    RunKeeps(s, events);
    var t := Run(s, events);
    hide Run;
    forall i | 0 <= i < |t.callers| && t.released ensures !t.callers[i].Calling? {
      if t.callers[i].Calling? { BusyBounds(t.callers, i); }
    }
    hide Busy;
  }

  /** Once closing is set, no step lets a call in. */
  lemma ClosingAdmitsNobody(s: System, e: Event, i: nat)
    requires i < |s.callers| && s.closing && !s.callers[i].Calling?
    ensures |Step(s, e).callers| == |s.callers| && !Step(s, e).callers[i].Calling?
  {
    hide NotifyAll, DoEnterClose, DoCloserStep, DoWorkerStep;
    if !e.EndCall? && !e.CallNotifies? { assert Step(s, e).callers == s.callers; }
  }

  // ----- What is admitted -----

  /** Until closing is set, and unless persistence has failed, every call that gets the lock is admitted and counted; a
      call that ends is counted out and gives its notice. */
  lemma OpenClientAdmits(s: System, i: nat)
    requires Inv(s) && i < |s.callers|
    ensures s.callers[i].Away? ==>
              Step(s, BeginCall(i)) ==
                if s.closing || s.closed || s.failed || !LockFree(s) then s
                else s.(callers := s.callers[i := Calling], active := s.active + 1)
    ensures s.callers[i].Calling? && LockFree(s) ==>
              && s.active > 0
              && Step(s, EndCall(i)) == s.(callers := s.callers[i := Leaving], active := s.active - 1)
  {
    if s.callers[i].Calling? { BusyBounds(s.callers, i); }
  }

  /** A worker starts exactly once, in an open persistent client. */
  lemma WorkerStartsIff(s: System)
    requires Inv(s)
    ensures Step(s, StartWorker) ==
              if s.persistent && s.worker.Absent? && !s.closing then s.(started := true, worker := Top) else s
  {}

  // ----- Waking the worker -----

  /** No worker knows an epoch that has not been. */
  predicate Informed(s: System) {
    match s.worker
    case Observed(epoch) => epoch <= s.epoch
    case Deciding(epoch) => epoch <= s.epoch
    case Blocking(epoch) => epoch <= s.epoch
    case Sleeping(epoch, _) => epoch <= s.epoch
    case _ => true
  }

  function Woken(w: WorkerPc): WorkerPc { if w.Sleeping? then w.(awake := true) else w }

  lemma NoticesWake(s: System)
    ensures NotifyAll(s).worker == Woken(s.worker) && NotifyAll(s).epoch == s.epoch
  {
    hide WakeAll;
  }

  lemma ClosersLeaveWorker(s: System, j: nat)
    requires j < |s.closers|
    ensures DoEnterClose(s, j).worker == s.worker && DoEnterClose(s, j).epoch == s.epoch
    ensures DoCloserStep(s, j).worker == s.worker || DoCloserStep(s, j).worker == Woken(s.worker)
    ensures DoCloserStep(s, j).epoch == s.epoch
  {
    NoticesWake(s);
    hide NotifyAll, NextPc;
  }

  /** What a step of anybody else does to the worker: nothing, waking it, or starting it. */
  lemma WorkerIsLeftAlone(s: System, e: Event)
    requires !e.WorkerSteps?
    ensures Step(s, e).epoch == if e.WakeWorker? then s.epoch + 1 else s.epoch
    ensures Step(s, e).worker == s.worker || Step(s, e).worker == Woken(s.worker) || Step(s, e).worker == Top
    ensures e.WakeWorker? ==> Step(s, e).worker == Woken(s.worker)
  {
    hide NotifyAll, DoEnterClose, DoCloserStep, DoWorkerStep, Woken;
    match e
    case BeginCall(_) =>
    case EndCall(_) =>
    case CallNotifies(_) => NoticesWake(s);
    case StartWorker =>
    case WakeWorker => NoticesWake(s.(epoch := s.epoch + 1));
    case EnterClose(j) => if j < |s.closers| { ClosersLeaveWorker(s, j); }
    case CloserSteps(j) => if j < |s.closers| { ClosersLeaveWorker(s, j); }
    case SpuriousWake => NoticesWake(s);
    case PersistenceFails =>
  }

  lemma WorkerStaysInformed(s: System, refresh: bool, checkpointFails: bool)
    requires Informed(s)
    ensures Informed(DoWorkerStep(s, refresh, checkpointFails))
  {}

  lemma InformedStep(s: System, e: Event)
    requires Informed(s)
    ensures Informed(Step(s, e))
  {
    if e.WorkerSteps? {
      WorkerStaysInformed(s, e.refresh, e.checkpointFails);
      hide DoWorkerStep, Informed, DoCloserStep, DoEnterClose, NotifyAll;
    } else {
      WorkerIsLeftAlone(s, e);
      hide Step;
    }
  }

  lemma {:induction false} InformedKeeps(s: System, events: seq<Event>)
    requires Informed(s)
    ensures Informed(Run(s, events))
    decreases |events|
  {
    if events != [] {
      InformedStep(s, events[0]);
      InformedKeeps(Step(s, events[0]), events[1..]);
      hide Step, Informed;
    }
  }

  const WORKER_STEPS := WorkerSteps(false, false)

  /** The worker is about to go round, and so to look at everything again, or does so within two steps of its own. */
  predicate GoesRound(s: System) {
    s.worker.Top? || Step(s, WORKER_STEPS).worker.Top? || Step(Step(s, WORKER_STEPS), WORKER_STEPS).worker.Top?
  }

  /** In an open client a wake-up makes the worker go round exactly if it does not come between the worker's last look at
      the epoch and its falling asleep; then the worker sleeps on, with the new epoch unseen. */
  lemma WakeUpIsSeenIff(s: System)
    requires Informed(s) && !s.cancelled && !s.closing && !WorkerGone(s)
    ensures var n := Step(s, WakeWorker);
            && (GoesRound(n) <==> LockFree(s))
            && (!LockFree(s) ==>
                  var asleep := Step(n, WORKER_STEPS);
                  && asleep.worker == Sleeping(s.worker.epoch, false) && asleep.worker.epoch < asleep.epoch
                  && Step(asleep, WORKER_STEPS) == asleep)
  {
    var n := Step(s, WakeWorker);
    WorkerIsLeftAlone(s, WakeWorker);
    FlagsStay(s);
    assert n.epoch == s.epoch + 1 && n.worker == Woken(s.worker);
    hide NotifyAll, DoEnterClose, DoCloserStep;
  }

  lemma FlagsStay(s: System)
    ensures Step(s, WakeWorker).cancelled == s.cancelled && Step(s, WakeWorker).closing == s.closing
  {
    hide WakeAll;
  }

  /** A worker that slept through a wake-up goes round at the next notification of any kind: another wake-up, the end of a
      call, a close, or its own timeout. */
  lemma NextNoticeIsSeen(s: System)
    requires s.worker.Sleeping? && s.worker.epoch < s.epoch
    ensures DoWorkerStep(NotifyAll(s), false, false).worker == Top
  {
    NoticesWake(s);
    hide NotifyAll;
  }

  lemma WorkerReachesSleep(s: System)
    requires Starting(s) && s.persistent
    ensures Run(s, [StartWorker, WORKER_STEPS, WORKER_STEPS, WORKER_STEPS]) ==
              s.(started := true, worker := Blocking(s.epoch))
  {
    var events := [StartWorker, WORKER_STEPS, WORKER_STEPS, WORKER_STEPS];
    assert events == [StartWorker] + events[1..] && events[1..] == [WORKER_STEPS] + events[2..];
    assert events[2..] == [WORKER_STEPS] + events[3..] && events[3..] == [WORKER_STEPS] + [];
    RunOneMore(s, StartWorker, events[1..]);
    RunOneMore(s.(started := true, worker := Top), WORKER_STEPS, events[2..]);
    RunOneMore(s.(started := true, worker := Observed(s.epoch)), WORKER_STEPS, events[3..]);
    RunOneMore(s.(started := true, worker := Deciding(s.epoch)), WORKER_STEPS, []);
    hide NotifyAll, DoEnterClose, DoCloserStep;
  }

  /** That happens: a worker starts, looks, finds nothing to do, and is woken before it sleeps. */
  lemma WakeUpCanBeLost(s: System)
    requires Starting(s) && s.persistent
    ensures !GoesRound(Step(Run(s, [StartWorker, WORKER_STEPS, WORKER_STEPS, WORKER_STEPS]), WakeWorker))
  {
    WorkerReachesSleep(s);
    WakeUpIsSeenIff(s.(started := true, worker := Blocking(s.epoch)));
    hide Step, Run, GoesRound;
  }

  /** In every interleaving the worker knows no epoch that has not been, so that the condition above is the only one. */
  lemma WorkersStayInformed(s: System, events: seq<Event>)
    requires Starting(s)
    ensures Informed(Run(s, events))
  {
    InformedKeeps(s, events);
    hide Run;
  }

  // ----- Termination -----

  function Sum<T>(xs: seq<T>, weight: T -> nat): nat {
    if xs == [] then 0 else weight(xs[0]) + Sum(xs[1..], weight)
  }

  lemma {:induction false} SumUpdate<T>(xs: seq<T>, i: nat, x: T, weight: T -> nat)
    requires i < |xs|
    ensures Sum(xs[i := x], weight) == Sum(xs, weight) - weight(xs[i]) + weight(x)
  {
    if i == 0 {
      assert xs[i := x][1..] == xs[1..];
    } else {
      SumUpdate(xs[1..], i - 1, x, weight);
      assert xs[i := x][1..] == xs[1..][i - 1 := x];
    }
  }

  lemma {:induction false} SumSame<T>(xs: seq<T>, ys: seq<T>, weight: T -> nat)
    requires |xs| == |ys| && forall k :: 0 <= k < |xs| ==> weight(xs[k]) == weight(ys[k])
    ensures Sum(xs, weight) == Sum(ys, weight)
  {
    if xs != [] { SumSame(xs[1..], ys[1..], weight); }
  }

  /** Notifications still to come from a caller, and from a closer. */
  function CallerNotices(pc: CallerPc): nat { if pc.Away? then 0 else 1 }

  function CloserNotices(pc: CloserPc): nat {
    if pc.Outside? || pc.Announcing? then 2 else if pc.Awaiting? || pc.Returned? then 0 else 1
  }

  function CallerRank(pc: CallerPc): nat { if pc.Calling? then 1 else 0 }

  function CloserRank(pc: CloserPc): nat {
    match pc
    case Outside => 10
    case Announcing => 9
    case Joining => 8
    case Draining(awake) => if awake then 7 else 6
    case Releasing => 5
    case Publishing => 4
    case Telling => 3
    case Awaiting(awake) => if awake then 2 else 1
    case Returned => 0
  }

  function WorkerRank(pc: WorkerPc): nat {
    match pc
    case Absent => 0
    case Exited => 0
    case Top => 1
    case Sleeping(_, awake) => if awake then 2 else 1
    case Refreshing => 2
    case Deciding(_) => 2
    case Blocking(_) => 2
    case Observed(_) => 3
  }

  function Notices(s: System): nat { Sum(s.callers, CallerNotices) + Sum(s.closers, CloserNotices) }

  function Rank(s: System): nat { Sum(s.callers, CallerRank) + Sum(s.closers, CloserRank) + WorkerRank(s.worker) }

  predicate Less(t: System, s: System) { Notices(t) < Notices(s) || (Notices(t) == Notices(s) && Rank(t) < Rank(s)) }

  /** A step the protocol itself takes, rather than a call that wakes the worker, a timeout or a storage failure. */
  predicate Own(e: Event) { !e.WakeWorker? && !e.SpuriousWake? && !e.PersistenceFails? }

  lemma NoticesOfNotify(s: System)
    ensures Notices(NotifyAll(s)) == Notices(s)
  {
    SumSame(s.closers, NotifyAll(s).closers, CloserNotices);
  }

  lemma CallerMoves(s: System, i: nat, pc: CallerPc)
    requires i < |s.callers|
    ensures var t := AtCaller(s, i, pc);
            && Notices(t) == Notices(s) - CallerNotices(s.callers[i]) + CallerNotices(pc)
            && Rank(t) == Rank(s) - CallerRank(s.callers[i]) + CallerRank(pc)
  {
    SumUpdate(s.callers, i, pc, CallerNotices);
    SumUpdate(s.callers, i, pc, CallerRank);
    hide Sum;
  }

  lemma CloserMoves(s: System, j: nat, pc: CloserPc)
    requires j < |s.closers|
    ensures var t := AtCloser(s, j, pc);
            && Notices(t) == Notices(s) - CloserNotices(s.closers[j]) + CloserNotices(pc)
            && Rank(t) == Rank(s) - CloserRank(s.closers[j]) + CloserRank(pc)
  {
    SumUpdate(s.closers, j, pc, CloserNotices);
    SumUpdate(s.closers, j, pc, CloserRank);
    hide Sum;
  }

  lemma CallerStepCounts(s: System, e: Event)
    requires s.closing && (e.BeginCall? || e.EndCall? || e.CallNotifies?) && Step(s, e) != s
    ensures Less(Step(s, e), s)
  {
    if e.EndCall? {
      CallerMoves(s, e.i, Leaving);
    } else {
      NoticesOfNotify(s);
      CallerMoves(NotifyAll(s), e.i, Away);
    }
    hide Sum, NotifyAll;
  }

  lemma SameWeight(s: System, t: System)
    requires t.callers == s.callers && t.closers == s.closers && t.worker == s.worker
    ensures Notices(t) == Notices(s) && Rank(t) == Rank(s)
  {}

  lemma NextPcCounts(s: System, pc: CloserPc)
    requires NextPc(s, pc) != pc
    ensures if pc.Announcing? || pc.Telling? then CloserNotices(NextPc(s, pc)) < CloserNotices(pc)
            else CloserNotices(NextPc(s, pc)) == CloserNotices(pc) && CloserRank(NextPc(s, pc)) < CloserRank(pc)
  {}

  lemma NotifyingCounts(s: System, j: nat)
    requires j < |s.closers| && (s.closers[j].Announcing? || s.closers[j].Telling?)
    ensures Less(DoCloserStep(s, j), s)
  {
    NextPcCounts(s, s.closers[j]);
    NoticesOfNotify(s);
    assert NotifyAll(s).closers[j] == s.closers[j];
    CloserMoves(NotifyAll(s), j, NextPc(s, s.closers[j]));
    SameWeight(AtCloser(NotifyAll(s), j, NextPc(s, s.closers[j])), DoCloserStep(s, j));
    hide Notices, Rank, NotifyAll, CloserNotices, CloserRank, AtCloser;
  }

  lemma QuietCounts(s: System, j: nat)
    requires j < |s.closers| && !s.closers[j].Announcing? && !s.closers[j].Telling?
        && NextPc(s, s.closers[j]) != s.closers[j]
    ensures Less(DoCloserStep(s, j), s)
  {
    NextPcCounts(s, s.closers[j]);
    CloserMoves(s, j, NextPc(s, s.closers[j]));
    SameWeight(AtCloser(s, j, NextPc(s, s.closers[j])), DoCloserStep(s, j));
    hide Notices, Rank, NotifyAll, NextPc, CloserNotices, CloserRank, AtCloser;
  }

  lemma CloserStepCounts(s: System, j: nat)
    requires j < |s.closers| && DoCloserStep(s, j) != s
    ensures Less(DoCloserStep(s, j), s)
  {
    if s.closers[j].Announcing? || s.closers[j].Telling? { NotifyingCounts(s, j); } else { QuietCounts(s, j); }
    hide NotifyAll, NextPc, AtCloser, Less;
  }

  lemma EnteringCounts(s: System, j: nat)
    requires s.closing && j < |s.closers| && s.closers[j].Outside?
    ensures Less(DoEnterClose(s, j), s)
  {
    CloserMoves(s, j, if s.closed then Returned else Awaiting(true));
    hide Sum;
  }

  lemma WorkerStepCounts(s: System, refresh: bool, checkpointFails: bool)
    requires s.closing && s.cancelled && DoWorkerStep(s, refresh, checkpointFails) != s
    ensures Less(DoWorkerStep(s, refresh, checkpointFails), s)
  {
    hide Sum;
  }

  /** Once a close has begun, every step of the protocol that changes anything brings its end closer, in any order. */
  lemma EveryStepCounts(s: System, e: Event)
    requires Inv(s) && s.closing && Own(e) && Step(s, e) != s
    ensures Less(Step(s, e), s)
  {
    hide Less, DoEnterClose, DoCloserStep, DoWorkerStep, NotifyAll, Busy, AtCaller;
    match e
    case BeginCall(_) => CallerStepCounts(s, e);
    case EndCall(_) => CallerStepCounts(s, e);
    case CallNotifies(_) => CallerStepCounts(s, e);
    case EnterClose(j) => EnteringCounts(s, j);
    case CloserSteps(j) => CloserStepCounts(s, j);
    case WorkerSteps(refresh, checkpointFails) => WorkerStepCounts(s, refresh, checkpointFails);
    case _ =>
  }

  predicate Entered(pc: CloserPc) { !pc.Outside? && !pc.Returned? }

  lemma {:induction false} SomeoneIsCalling(callers: seq<CallerPc>) returns (i: nat)
    requires Busy(callers) > 0
    ensures i < |callers| && callers[i].Calling?
  {
    if callers[0].Calling? {
      i := 0;
    } else {
      i := SomeoneIsCalling(callers[1..]);
      i := i + 1;
    }
  }

  /** While a close that has been entered has not returned, some step of the protocol can be taken: no deadlock and no lost
      wakeup. */
  lemma SomeoneCanMove(s: System, j: nat) returns (e: Event)
    requires Inv(s) && j < |s.closers| && Entered(s.closers[j])
    ensures s.closing && Own(e) && Step(s, e) != s
  {
    assert s.closing;
    var owner := s.owner.value;
    e := CloserSteps(owner);
    match OwnerPc(s)
    case Announcing => MovingMoves(s, owner);
    case Joining =>
      if WorkerGone(s) { MovingMoves(s, owner); } else { e := WorkerSteps(false, false); }
    case Draining(awake) =>
      if awake {
        MovingMoves(s, owner);
      } else if s.active == 0 {
        var i :| 0 <= i < |s.callers| && s.callers[i].Leaving?;
        e := CallNotifies(i);
        assert Step(s, e).callers[i].Away?;
      } else {
        var i := SomeoneIsCalling(s.callers);
        e := EndCall(i);
        assert Step(s, e).callers[i].Leaving?;
      }
    case Releasing => MovingMoves(s, owner);
    case Publishing => MovingMoves(s, owner);
    case Telling => MovingMoves(s, owner);
    case Returned =>
      e := CloserSteps(j);
      MovingMoves(s, j);
    hide Busy, WakeAll, NotifyAll;
  }

  lemma MovingMoves(s: System, j: nat)
    requires j < |s.closers| && NextPc(s, s.closers[j]) != s.closers[j]
    ensures DoCloserStep(s, j) != s
  {
    assert DoCloserStep(s, j).closers[j] == NextPc(s, s.closers[j]);
    hide NextPc, WakeAll;
  }

  /** Every close that has been entered has returned. */
  predicate Settled(s: System) { forall j :: 0 <= j < |s.closers| ==> !Entered(s.closers[j]) }

  lemma RunOneMore(s: System, e: Event, rest: seq<Event>)
    ensures Run(s, [e] + rest) == Run(Step(s, e), rest)
  {
    assert ([e] + rest)[1..] == rest;
    hide Step;
  }

  /** And so, if the threads keep moving, every close that has been entered returns. */
  lemma {:induction false} CloseFinishes(s: System) returns (events: seq<Event>)
    requires Inv(s) && s.closing
    ensures Settled(Run(s, events))
    decreases Notices(s), Rank(s)
  {
    events := [];
    if !Settled(s) {
      var j :| 0 <= j < |s.closers| && Entered(s.closers[j]);
      var e := SomeoneCanMove(s, j);
      EveryStepCounts(s, e);
      StepKeeps(s, e);
      ClosingLasts(s, e);
      hide Step, Inv, Notices, Rank, Settled, Run;
      var rest := CloseFinishes(Step(s, e));
      events := [e] + rest;
      RunOneMore(s, e, rest);
    }
  }

  lemma ClosingLasts(s: System, e: Event)
    requires s.closing
    ensures Step(s, e).closing
  {
    hide NotifyAll, DoEnterClose, DoCloserStep, DoWorkerStep;
  }
}
