/** Crash-fenced replacement of the installed record on Linux (sdk/go/installed_linux.go, with the marker rules of
    sdk/go/storage_secret_linux.go). The disk keeps, for everything not yet synced, every value a crash may leave;
    every step may fail, with or without its effect, and the machine may stop after any step. */
module FileReplace {
  import opened Common

  type Data = seq<byte>

  const LIMIT := 65536

  /** now is what the running system sees, may what a crash could leave. */
  datatype Cell<T(==)> = Cell(now: T, may: set<T>)
  {
    function Put(value: T): Cell<T> { Cell(value, may + {value}) }
    function Settle(): Cell<T> { Cell(now, {now}) }
  }

  datatype Content = Whole(data: Data) | Torn

  datatype Entry = Missing | Named(content: Content)

  /** fence: the lease holds the one-byte marker; entry: what the record's name leads to; temp: the temporary file. */
  datatype Disk = Disk(fence: Cell<bool>, entry: Cell<Entry>, temp: Option<Cell<Content>>)

  datatype FileOp =
    | RaiseFence | SyncFence | CheckFence(raised: bool) | MakeTemp | FillTemp(data: Data) | SyncTemp | Rename | SyncDirectory | LowerFence

  /** How one file operation ends. */
  datatype Outcome = Done | FailedBefore | FailedAfter

  function Effect(d: Disk, op: FileOp): Disk {
    match op
    case RaiseFence => d.(fence := d.fence.Put(true))
    case LowerFence => d.(fence := d.fence.Put(false))
    case SyncFence => d.(fence := d.fence.Settle())
    case CheckFence(_) => d
    case MakeTemp => d.(temp := Some(Cell(Torn, {Torn})))
    case FillTemp(data) => if d.temp.None? then d else d.(temp := Some(d.temp.value.Put(Whole(data))))
    case SyncTemp => if d.temp.None? then d else d.(temp := Some(d.temp.value.Settle()))
    case Rename =>
      if d.temp.None? then d
      else
        var content := d.temp.value;
        d.(entry := Cell(Named(content.now), d.entry.may + (set c | c in content.may :: Named(c))), temp := None)
    case SyncDirectory => d.(entry := d.entry.Settle())
  }

  function Attempt(d: Disk, op: FileOp, outcome: Outcome): (Disk, bool) {
    if op.CheckFence? then (d, outcome.Done? && d.fence.now == op.raised)
    else if outcome.FailedBefore? then (d, false)
    else if outcome.FailedAfter? && op.FillTemp? then (Effect(d, FillTemp([])), false)
    else (Effect(d, op), outcome.Done?)
  }

  /** The replacement, step by step. */
  function Protocol(data: Data): (ops: seq<FileOp>)
    ensures |ops| == 12
  {
    [RaiseFence, SyncFence, CheckFence(true), MakeTemp, FillTemp(data), SyncTemp, CheckFence(true), Rename,
        SyncDirectory,
     LowerFence, SyncFence, CheckFence(false)]
  }

  /** Past this step every further one has seen the fence's sync return. */
  const FENCED := 2

  /** After step n the fence's sync has returned. */
  predicate SyncReturned(n: nat, outcomes: seq<Outcome>) {
    n >= FENCED || (n == FENCED - 1 && OutcomeAt(outcomes, n).Done?)
  }

  function OutcomeAt(outcomes: seq<Outcome>, k: nat): Outcome { if k < |outcomes| then outcomes[k] else Done }

  /** The disk after each step from the k-th on, ending with the first that fails. */
  function Trace(d: Disk, data: Data, outcomes: seq<Outcome>, k: nat): seq<Disk>
    requires k <= 12
    decreases 12 - k
  {
    if k == 12 then []
    else
      var (next, ok) := Attempt(d, Protocol(data)[k], OutcomeAt(outcomes, k));
      [next] + if ok then Trace(next, data, outcomes, k + 1) else []
  }

  function Succeeds(d: Disk, data: Data, outcomes: seq<Outcome>, k: nat): bool
    requires k <= 12
    decreases 12 - k
  {
    if k == 12 then true
    else
      var (next, ok) := Attempt(d, Protocol(data)[k], OutcomeAt(outcomes, k));
      ok && Succeeds(next, data, outcomes, k + 1)
  }

  // ----- Opening again -----

  datatype Opened = Reads(data: Data) | Refused | Garbage

  /** What opening finds, given the marker and what the name leads to. */
  function Reopen(fence: bool, entry: Entry): Opened {
    if fence || entry.Missing? then Refused
    else
      match entry.content
      case Torn => Garbage
      case Whole(data) => if 0 < |data| <= LIMIT then Reads(data) else Refused
  }

  /** A crash keeps one of the values each cell may have. */
  predicate Crashes(d: Disk, after: Disk) {
    && after.fence.now in d.fence.may && after.fence.may == {after.fence.now}
    && after.entry.now in d.entry.may && after.entry.may == {after.entry.now}
  }

  predicate Coherent(d: Disk) { d.fence.now in d.fence.may && d.entry.now in d.entry.may }

  /** The record's name leads to this, whatever happens. */
  predicate Sure(d: Disk, entry: Entry) { d.entry.now == entry && d.entry.may == {entry} }

  predicate Locked(d: Disk) { d.fence.now && d.fence.may == {true} }

  /** With or without a crash, opening finds one of these or a refusal. */
  ghost predicate Finds(d: Disk, entries: set<Entry>) {
    forall fence, entry :: fence in d.fence.may && entry in d.entry.may ==> fence || entry in entries
  }

  // ----- One replacement -----

  /** The disk after k successful steps. */
  predicate Phase(k: nat, d: Disk, prior: Entry, data: Data) {
    && Coherent(d)
    && (k == 0 ==> !d.fence.now && Sure(d, prior))
    && (k == 1 ==> d.fence.now && Sure(d, prior))
    && (2 <= k <= 9 ==> Locked(d))
    && (2 <= k <= 7 ==> Sure(d, prior))
    && (k == 4 ==> d.temp.Some?)
    && (k == 5 ==> d.temp.Some? && d.temp.value.now == Whole(data))
    && (6 <= k <= 7 ==> d.temp.Some? && d.temp.value == Cell(Whole(data), {Whole(data)}))
    && (k == 8 ==> d.entry.now == Named(Whole(data)) && d.entry.may == {prior, Named(Whole(data))})
    && (k >= 9 ==> Sure(d, Named(Whole(data))))
    && (k >= 10 ==> !d.fence.now)
    && (k >= 11 ==> d.fence.may == {false})
  }

  /** What the disk allows after step k was tried: until the fence's sync has returned the prior entry or a refusal,
      afterwards the new entry or a refusal, and torn content never. */
  ghost predicate Safe(k: nat, d: Disk, prior: Entry, data: Data) {
    && Coherent(d)
    && Finds(d, if k < FENCED then {prior} else {Named(Whole(data))})
    && (Locked(d) || Sure(d, prior) || Sure(d, Named(Whole(data))))
  }

  lemma StepIsSafe(k: nat, d: Disk, prior: Entry, data: Data, outcome: Outcome)
    requires k < 12 && Phase(k, d, prior, data)
    ensures var (next, ok) := Attempt(d, Protocol(data)[k], outcome);
            Safe(k, next, prior, data) && (ok ==> Phase(k + 1, next, prior, data))
  {
    if k == 7 { assert (set c | c in d.temp.value.may :: Named(c)) == {Named(Whole(data))}; }
  }

  lemma FenceStepLocks(k: nat, d: Disk, prior: Entry, data: Data, outcome: Outcome)
    requires k == FENCED - 1 && Phase(k, d, prior, data) && outcome.Done?
    ensures Locked(Attempt(d, Protocol(data)[k], outcome).0)
  {}

  lemma {:induction false} TraceIsSafe(k: nat, d: Disk, prior: Entry, data: Data, outcomes: seq<Outcome>, n: nat)
    requires k <= 12 && Phase(k, d, prior, data) && n < |Trace(d, data, outcomes, k)|
    ensures Safe(k + n, Trace(d, data, outcomes, k)[n], prior, data)
    ensures k + n == FENCED - 1 && OutcomeAt(outcomes, k + n).Done? ==> Locked(Trace(d, data, outcomes, k)[n])
    decreases 12 - k
  {
    var (next, ok) := Attempt(d, Protocol(data)[k], OutcomeAt(outcomes, k));
    StepIsSafe(k, d, prior, data, OutcomeAt(outcomes, k));
    hide Safe, Phase, Attempt, Locked;
    if k == FENCED - 1 && OutcomeAt(outcomes, k).Done? {
      FenceStepLocks(k, d, prior, data, OutcomeAt(outcomes, k));
    }
    if n > 0 { TraceIsSafe(k + 1, next, prior, data, outcomes, n - 1); }
  }

  lemma {:induction false} SuccessIsFinal(k: nat, d: Disk, prior: Entry, data: Data, outcomes: seq<Outcome>)
    requires k < 12 && Phase(k, d, prior, data) && Succeeds(d, data, outcomes, k)
    ensures var trace := Trace(d, data, outcomes, k); |trace| == 12 - k && Phase(12, trace[11 - k], prior, data)
    decreases 12 - k
  {
    StepIsSafe(k, d, prior, data, OutcomeAt(outcomes, k));
    Unfold(d, data, outcomes, k);
    hide Phase, Attempt, Trace, Succeeds, Protocol, Safe;
    var (next, ok) := Attempt(d, Protocol(data)[k], OutcomeAt(outcomes, k));
    if k == 11 { NothingLeft(next, data, outcomes); } else { SuccessIsFinal(k + 1, next, prior, data, outcomes); }
  }

  lemma ReadyToReplace(d: Disk, prior: Entry, data: Data)
    requires Coherent(d) && !d.fence.now && Sure(d, prior)
    ensures Phase(0, d, prior, data)
  {}

  lemma OpensOneOf(s: Disk, k: nat, prior: Data, data: Data, after: Disk)
    requires Safe(k, s, Named(Whole(prior)), data) && (Crashes(s, after) || after == s)
    requires 0 < |prior| <= LIMIT && 0 < |data| <= LIMIT
    ensures Reopen(after.fence.now, after.entry.now) in {if k < FENCED then Reads(prior) else Reads(data), Refused}
    ensures Locked(s) ==> Reopen(after.fence.now, after.entry.now) == Refused
  {
    assert after.fence.now in s.fence.may && after.entry.now in s.entry.may;
  }

  /** Stop the machine, or just the process, after any step of a replacement, in which any step may have failed: opening
      again reads exactly the old record, exactly the new record, or is refused. Once the fence's sync has returned, the
      old record is not read again. */
  lemma CrashAtAnyStep(d: Disk, prior: Data, data: Data, outcomes: seq<Outcome>, n: nat, after: Disk)
    requires Coherent(d) && !d.fence.now && Sure(d, Named(Whole(prior))) && 0 < |prior| <= LIMIT && 0 < |data| <= LIMIT
    requires n < |Trace(d, data, outcomes, 0)|
    requires Crashes(Trace(d, data, outcomes, 0)[n], after) || after == Trace(d, data, outcomes, 0)[n]
    ensures Reopen(after.fence.now, after.entry.now) in {Reads(prior), Reads(data), Refused}
    ensures SyncReturned(n, outcomes) ==> Reopen(after.fence.now, after.entry.now) in {Reads(data), Refused}
  {
    hide Trace, Safe, Phase, Crashes, Reopen;
    ReadyToReplace(d, Named(Whole(prior)), data);
    TraceIsSafe(0, d, Named(Whole(prior)), data, outcomes, n);
    OpensOneOf(Trace(d, data, outcomes, 0)[n], n, prior, data, after);
  }

  /** If the replacement reports success, the new record is what every later opening reads, crash or not. */
  lemma SuccessIsDurable(d: Disk, prior: Entry, data: Data, outcomes: seq<Outcome>, after: Disk)
    requires Coherent(d) && !d.fence.now && Sure(d, prior) && 0 < |data| <= LIMIT
    requires Succeeds(d, data, outcomes, 0)
    ensures |Trace(d, data, outcomes, 0)| == 12
    ensures Crashes(Trace(d, data, outcomes, 0)[11], after) || after == Trace(d, data, outcomes, 0)[11] ==>
              Reopen(after.fence.now, after.entry.now) == Reads(data)
  {
    hide Trace, Succeeds, Phase, Crashes, Reopen;
    ReadyToReplace(d, prior, data);
    SuccessIsFinal(0, d, prior, data, outcomes);
    OpensNew(Trace(d, data, outcomes, 0)[11], prior, data, after);
  }

  lemma StepSucceedsIff(k: nat, d: Disk, prior: Entry, data: Data, outcome: Outcome)
    requires k < 12 && Phase(k, d, prior, data)
    ensures Attempt(d, Protocol(data)[k], outcome).1 <==> outcome.Done?
  {}

  lemma {:induction false} RestSucceedsIff(k: nat, d: Disk, prior: Entry, data: Data, outcomes: seq<Outcome>)
    requires k <= 12 && (k < 12 ==> Phase(k, d, prior, data))
    ensures Succeeds(d, data, outcomes, k) <==> forall n :: k <= n < 12 ==> OutcomeAt(outcomes, n).Done?
    decreases 12 - k
  {
    if k < 12 {
      var (next, ok) := Attempt(d, Protocol(data)[k], OutcomeAt(outcomes, k));
      StepSucceedsIff(k, d, prior, data, OutcomeAt(outcomes, k));
      StepIsSafe(k, d, prior, data, OutcomeAt(outcomes, k));
      hide Phase, Attempt, Safe;
      if ok { RestSucceedsIff(k + 1, next, prior, data, outcomes); }
    }
  }

  /** A replacement of a record whose marker is clear succeeds exactly if each of its twelve file operations does: its own
      checks never stand in the way. */
  lemma ReplacementSucceedsIff(d: Disk, prior: Entry, data: Data, outcomes: seq<Outcome>)
    requires Coherent(d) && !d.fence.now && Sure(d, prior)
    ensures Succeeds(d, data, outcomes, 0) <==> forall n :: 0 <= n < 12 ==> OutcomeAt(outcomes, n).Done?
  {
    ReadyToReplace(d, prior, data);
    RestSucceedsIff(0, d, prior, data, outcomes);
  }

  lemma OpensNew(s: Disk, prior: Entry, data: Data, after: Disk)
    requires Phase(12, s, prior, data) && 0 < |data| <= LIMIT
    ensures Crashes(s, after) || after == s ==> Reopen(after.fence.now, after.entry.now) == Reads(data)
  {}

  /** A refusal after the fence is on disk is permanent: crashes keep it, and every further replacement fails without
      touching anything. */
  lemma LockedStaysLocked(d: Disk, after: Disk)
    requires Locked(d) && (Crashes(d, after) || after == d)
    ensures Locked(after) && Reopen(after.fence.now, after.entry.now) == Refused
  {}

  // ----- The files object -----

  class LinuxInstalledFiles {
    var disk: Disk
    var allowMissing: bool

    constructor (disk: Disk, created: bool)
      ensures this.disk == disk && allowMissing == created
    {
      this.disk, allowMissing := disk, created;
    }

    method Read() returns (r: Opened)
      ensures r == Reopen(disk.fence.now, disk.entry.now)
    {
      if disk.fence.now { return Refused; }
      if disk.entry.now.Missing? { return Refused; }
      match disk.entry.now.content {
        case Torn => return Garbage;
        case Whole(data) => return if |data| == 0 || |data| > LIMIT then Refused else Reads(data);
      }
    }

    /** The k-th step; trace grows by the disk it leaves. */
    method Perform(op: FileOp, outcomes: seq<Outcome>, k: nat, ghost data: Data, ghost start: Disk,
        ghost before: seq<Disk>)
      returns (ok: bool, ghost trace: seq<Disk>)
      requires k < 12 && op == Protocol(data)[k]
      requires Trace(start, data, outcomes, 0) == before + Trace(disk, data, outcomes, k)
      requires Succeeds(start, data, outcomes, 0) == Succeeds(disk, data, outcomes, k)
      modifies this`disk
      ensures trace == before + [disk]
      ensures ok ==> Trace(start, data, outcomes, 0) == trace + Trace(disk, data, outcomes, k + 1)
      ensures ok ==> Succeeds(start, data, outcomes, 0) == Succeeds(disk, data, outcomes, k + 1)
      ensures !ok ==> Trace(start, data, outcomes, 0) == trace && !Succeeds(start, data, outcomes, 0)
    {
      hide Trace, Succeeds, Protocol;
      Unfold(disk, data, outcomes, k);
      var (next, success) := Attempt(disk, op, OutcomeAt(outcomes, k));
      hide Attempt;
      assert before + ([next] + Trace(next, data, outcomes, k + 1)) == before + [next] + Trace(next, data, outcomes,
          k + 1);
      disk, ok := next, success;
      trace := before + [disk];
    }

    /** Raise the marker and make sure it is on disk. */
    method RaiseMarker(data: Data, outcomes: seq<Outcome>) returns (ok: bool, ghost trace: seq<Disk>)
      modifies this`disk
      ensures trace != [] && disk == trace[|trace| - 1]
      ensures ok ==> Trace(old(disk), data, outcomes, 0) == trace + Trace(disk, data, outcomes, 3)
      ensures ok ==> Succeeds(old(disk), data, outcomes, 0) == Succeeds(disk, data, outcomes, 3)
      ensures !ok ==> Trace(old(disk), data, outcomes, 0) == trace && !Succeeds(old(disk), data, outcomes, 0)
    {
      hide Trace, Succeeds, Attempt;
      ghost var start := disk;
      assert [] + Trace(disk, data, outcomes, 0) == Trace(disk, data, outcomes, 0);
      ok, trace := Perform(RaiseFence, outcomes, 0, data, start, []);
      if !ok { return; }
      ok, trace := Perform(SyncFence, outcomes, 1, data, start, trace);
      if !ok { return; }
      ok, trace := Perform(CheckFence(true), outcomes, 2, data, start, trace);
    }

    /** Write the temporary file and make sure it is on disk. */
    method FillTemporary(data: Data, outcomes: seq<Outcome>, ghost start: Disk, ghost before: seq<Disk>)
      returns (ok: bool, ghost trace: seq<Disk>)
      requires Trace(start, data, outcomes, 0) == before + Trace(disk, data, outcomes, 3)
      requires Succeeds(start, data, outcomes, 0) == Succeeds(disk, data, outcomes, 3)
      modifies this`disk
      ensures trace != [] && disk == trace[|trace| - 1]
      ensures ok ==> Trace(start, data, outcomes, 0) == trace + Trace(disk, data, outcomes, 7)
      ensures ok ==> Succeeds(start, data, outcomes, 0) == Succeeds(disk, data, outcomes, 7)
      ensures !ok ==> Trace(start, data, outcomes, 0) == trace && !Succeeds(start, data, outcomes, 0)
    {
      hide Trace, Succeeds, Attempt;
      ok, trace := Perform(MakeTemp, outcomes, 3, data, start, before);
      if !ok { return; }
      ok, trace := Perform(FillTemp(data), outcomes, 4, data, start, trace);
      if !ok { return; }
      ok, trace := Perform(SyncTemp, outcomes, 5, data, start, trace);
      if !ok { return; }
      ok, trace := Perform(CheckFence(true), outcomes, 6, data, start, trace);
    }

    /** Swap the record and clear the marker. */
    method Swap(data: Data, outcomes: seq<Outcome>, ghost start: Disk, ghost before: seq<Disk>)
      returns (ok: bool, ghost trace: seq<Disk>)
      requires Trace(start, data, outcomes, 0) == before + Trace(disk, data, outcomes, 7)
      requires Succeeds(start, data, outcomes, 0) == Succeeds(disk, data, outcomes, 7)
      modifies this`disk
      ensures trace != [] && disk == trace[|trace| - 1]
      ensures ok == Succeeds(start, data, outcomes, 0) && trace == Trace(start, data, outcomes, 0)
    {
      hide Trace, Succeeds, Attempt;
      ok, trace := Perform(Rename, outcomes, 7, data, start, before);
      if !ok { return; }
      ok, trace := Perform(SyncDirectory, outcomes, 8, data, start, trace);
      if !ok { return; }
      ok, trace := Perform(LowerFence, outcomes, 9, data, start, trace);
      if !ok { return; }
      ok, trace := Perform(SyncFence, outcomes, 10, data, start, trace);
      if !ok { return; }
      ok, trace := Perform(CheckFence(false), outcomes, 11, data, start, trace);
      NothingLeft(disk, data, outcomes);
    }

    /** Replace the record. Nothing happens unless the marker is clear and the present record can be read, or none is
        expected yet; otherwise the disk goes through exactly the states of Trace. */
    method Write(data: Data, outcomes: seq<Outcome>) returns (ok: bool, ghost trace: seq<Disk>)
      modifies this
      ensures var ready := !old(disk.fence.now) && 0 < |data| <= LIMIT
                && (Reopen(false, old(disk.entry.now)).Reads? || (old(allowMissing) && old(disk.entry.now).Missing?));
              && (!ready ==> !ok && trace == [] && disk == old(disk))
              && (ready ==> ok == Succeeds(old(disk), data, outcomes, 0) && trace == Trace(old(disk), data, outcomes, 0)
                            && trace != [] && disk == trace[|trace| - 1].(temp := None))
      ensures allowMissing == (old(allowMissing) && !ok)
    {
      hide Trace, Succeeds, Attempt;
      trace := [];
      ghost var start := disk;
      if disk.fence.now || |data| == 0 || |data| > LIMIT { return false, trace; }
      var present := Read();
      if !present.Reads? && !(allowMissing && disk.entry.now.Missing?) { return false, trace; }
      ok, trace := RaiseMarker(data, outcomes);
      if ok { ok, trace := FillTemporary(data, outcomes, start, trace); }
      if ok { ok, trace := Swap(data, outcomes, start, trace); }
      disk := disk.(temp := None);
      if ok { allowMissing := false; }
    }
  }

  lemma Unfold(d: Disk, data: Data, outcomes: seq<Outcome>, k: nat)
    requires k < 12
    ensures var (next, ok) := Attempt(d, Protocol(data)[k], OutcomeAt(outcomes, k));
            && Trace(d, data, outcomes, k) == [next] + (if ok then Trace(next, data, outcomes, k + 1) else [])
            && Succeeds(d, data, outcomes, k) == (ok && Succeeds(next, data, outcomes, k + 1))
  {
    hide Attempt;
  }

  lemma NothingLeft(d: Disk, data: Data, outcomes: seq<Outcome>)
    ensures Trace(d, data, outcomes, 12) == [] && Succeeds(d, data, outcomes, 12)
  {}

  // ----- Whole lives of a disk -----

  /** attempts are the records given to replacements so far; the disk holds the held-th of them, 0 for none yet. floor is
      the last attempt whose fence reached the disk. found lists what openings read, with the floor at that time. */
  datatype Machine = Machine(disk: Disk, open: bool, poisoned: bool, attempts: seq<Data>, held: nat, floor: nat,
      found: seq<Found>)

  datatype Found = Found(attempt: nat, floor: nat, data: Data)

  datatype Event =
    | Open
    | Replace(data: Data, outcomes: seq<Outcome>,
        stopAfter: Option<nat>)   // stopAfter: the process dies after that step
    | Exit
    | PowerLoss(fence: bool, entry: Entry)                                  // what the crash leaves of each cell

  function EntryAt(attempts: seq<Data>, n: nat): Entry
    requires n <= |attempts|
  {
    if n == 0 then Missing else Named(Whole(attempts[n - 1]))
  }

  function Replaced(m: Machine, data: Data, outcomes: seq<Outcome>, stopAfter: Option<nat>): Machine {
    var trace := Trace(m.disk, data, outcomes, 0);
    var died := stopAfter.Some? && stopAfter.value < |trace|;
    var last := if died then stopAfter.value else |trace| - 1;
    if trace == [] then m
    else Concluded(m, data, trace[last], last, SyncReturned(last, outcomes), died, Succeeds(m.disk, data, outcomes, 0))
  }

  function Concluded(m: Machine, data: Data, after: Disk, last: nat, fenced: bool, died: bool, ok: bool): Machine {
    var n := |m.attempts| + 1;
    m.(disk := after.(temp := None), attempts := m.attempts + [data], open := !died, poisoned := !ok,
       held := if last >= FENCED && Sure(after, Named(Whole(data))) then n else m.held,
       floor := if fenced then n else m.floor)
  }

  function Step(m: Machine, e: Event): Machine {
    match e
    case Open =>
      if !m.open && Reopen(m.disk.fence.now, m.disk.entry.now).Reads? then
        m.(open := true, poisoned := false, found := m.found + [Found(m.held, m.floor,
            Reopen(m.disk.fence.now, m.disk.entry.now).data)])
      else m
    case Replace(data, outcomes, stopAfter) =>
      if m.open && !m.poisoned && 0 < |data| <= LIMIT then Replaced(m, data, outcomes, stopAfter) else m
    case Exit => m.(open := false)
    case PowerLoss(fence, entry) =>
      if fence in m.disk.fence.may && entry in m.disk.entry.may then
        m.(open := false, disk := Disk(Cell(fence, {fence}), Cell(entry, {entry}), None))
      else m
  }

  function Run(m: Machine, events: seq<Event>): Machine
    decreases |events|
  {
    if events == [] then m else Run(Step(m, events[0]), events[1..])
  }

  /** A directory that has just been created, opened by the process that created it. */
  function Created(): Machine {
    Machine(Disk(Cell(false, {false}), Cell(Missing, {Missing}), None), true, false, [], 0, 0, [])
  }

  predicate FoundInOrder(found: seq<Found>, attempts: seq<Data>) {
    && (forall j, k :: 0 <= j < k < |found| ==> found[j].attempt <= found[k].attempt)
    && (forall k :: 0 <= k < |found| ==>
          found[k].floor <= found[k].attempt && 1 <= found[k].attempt <= |attempts|
              && found[k].data == attempts[found[k].attempt - 1])
  }

  predicate Inv(m: Machine) {
    && Coherent(m.disk) && m.held <= |m.attempts| && m.floor <= |m.attempts|
    && (forall k :: 0 <= k < |m.attempts| ==> 0 < |m.attempts[k]| <= LIMIT)
    && (!Locked(m.disk) ==> Sure(m.disk, EntryAt(m.attempts, m.held)) && m.floor <= m.held)
    && (m.open && !m.poisoned ==> !m.disk.fence.now)
    && FoundInOrder(m.found, m.attempts) && (forall k :: 0 <= k < |m.found| ==> m.found[k].attempt <= m.held)
  }

  lemma TraceStarts(d: Disk, data: Data, outcomes: seq<Outcome>)
    ensures Trace(d, data, outcomes, 0) != [] && |Trace(d, data, outcomes, 0)| <= 12
    ensures Succeeds(d, data, outcomes, 0) ==> |Trace(d, data, outcomes, 0)| == 12
  {
    TraceLength(d, data, outcomes, 0);
  }

  lemma {:induction false} TraceLength(d: Disk, data: Data, outcomes: seq<Outcome>, k: nat)
    requires k <= 12
    ensures |Trace(d, data, outcomes, k)| <= 12 - k
    ensures Succeeds(d, data, outcomes, k) ==> |Trace(d, data, outcomes, k)| == 12 - k
    decreases 12 - k
  {
    if k < 12 { TraceLength(Attempt(d, Protocol(data)[k], OutcomeAt(outcomes, k)).0, data, outcomes, k + 1); }
    hide Attempt;
  }

  lemma FindsSure(d: Disk, entry: Entry)
    requires Finds(d, {entry}) && Coherent(d)
    ensures Locked(d) || Sure(d, entry)
  {
    if false in d.fence.may {
      forall e | e in d.entry.may ensures e == entry { assert e in {entry}; }
      assert d.entry.may == {entry};
    } else {
      forall b | b in d.fence.may ensures b == true { assert b == true || b == false; }
      assert d.fence.may == {true};
    }
  }

  /** Where a replacement ends, whether it finished, failed or died. */
  lemma ReplacementEnds(d: Disk, prior: Entry, data: Data, outcomes: seq<Outcome>, last: nat)
    requires Coherent(d) && !d.fence.now && Sure(d, prior) && last < |Trace(d, data, outcomes, 0)|
    ensures var after := Trace(d, data, outcomes, 0)[last];
            && Coherent(after) && (Locked(after) || Sure(after, if last < FENCED then prior else Named(Whole(data))))
            && (last < FENCED && SyncReturned(last, outcomes) ==> Locked(after))
  {
    ReadyToReplace(d, prior, data);
    hide Trace, Finds, Phase;
    TraceIsSafe(0, d, prior, data, outcomes, last);
    FindsSure(Trace(d, data, outcomes, 0)[last], if last < FENCED then prior else Named(Whole(data)));
  }

  lemma SuccessLowersFence(d: Disk, prior: Entry, data: Data, outcomes: seq<Outcome>)
    requires Coherent(d) && !d.fence.now && Sure(d, prior) && Succeeds(d, data, outcomes, 0)
    ensures |Trace(d, data, outcomes, 0)| == 12 && !Trace(d, data, outcomes, 0)[11].fence.now
  {
    hide Trace, Succeeds;
    ReadyToReplace(d, prior, data);
    SuccessIsFinal(0, d, prior, data, outcomes);
  }

  lemma FoundStays(found: seq<Found>, attempts: seq<Data>, data: Data)
    requires FoundInOrder(found, attempts)
    ensures FoundInOrder(found, attempts + [data])
  {}

  lemma ConcludedKeeps(m: Machine, data: Data, after: Disk, last: nat, fenced: bool, died: bool, ok: bool)
    requires Inv(m) && 0 < |data| <= LIMIT && !Locked(m.disk) && Coherent(after)
    requires Locked(after) || Sure(after, if last < FENCED then EntryAt(m.attempts, m.held) else Named(Whole(data)))
    requires (last >= FENCED ==> fenced) && (last < FENCED && fenced ==> Locked(after))
    requires ok && !died ==> !after.fence.now
    ensures Inv(Concluded(m, data, after, last, fenced, died, ok))
  {
    FoundStays(m.found, m.attempts, data);
    var n := Concluded(m, data, after, last, fenced, died, ok);
    assert EntryAt(n.attempts, m.held) == EntryAt(m.attempts, m.held)
        && EntryAt(n.attempts, |n.attempts|) == Named(Whole(data));
    hide FoundInOrder, EntryAt;
  }

  lemma ReplaceKeeps(m: Machine, data: Data, outcomes: seq<Outcome>, stopAfter: Option<nat>)
    requires Inv(m) && m.open && !m.poisoned && 0 < |data| <= LIMIT && !Locked(m.disk)
    ensures Inv(Replaced(m, data, outcomes, stopAfter))
  {
    TraceStarts(m.disk, data, outcomes);
    var prior := EntryAt(m.attempts, m.held);
    var trace := Trace(m.disk, data, outcomes, 0);
    var died := stopAfter.Some? && stopAfter.value < |trace|;
    var last := if died then stopAfter.value else |trace| - 1;
    ReplacementEnds(m.disk, prior, data, outcomes, last);
    if Succeeds(m.disk, data, outcomes, 0) { SuccessLowersFence(m.disk, prior, data, outcomes); }
    ConcludedKeeps(m, data, trace[last], last, SyncReturned(last, outcomes), died, Succeeds(m.disk, data, outcomes, 0));
    hide Trace, Succeeds, Concluded, Inv;
  }

  lemma StepKeeps(m: Machine, e: Event)
    requires Inv(m)
    ensures Inv(Step(m, e))
  {
    if e.Replace? && m.open && !m.poisoned && 0 < |e.data| <= LIMIT {
      ReplaceKeeps(m, e.data, e.outcomes, e.stopAfter);
    }
    hide Replaced;
  }

  lemma {:induction false} RunKeeps(m: Machine, events: seq<Event>)
    requires Inv(m)
    ensures Inv(Run(m, events))
    decreases |events|
  {
    if events != [] {
      StepKeeps(m, events[0]);
      RunKeeps(Step(m, events[0]), events[1..]);
    }
  }

  /** Over any run of replacements, failures, process deaths, power losses and openings of a directory: every opening
      that is not refused reads one of the records given to a replacement, never an earlier one than an opening before
      it, and never one from before the last replacement whose fence reached the disk. */
  lemma OldRecordsNeverReturn(events: seq<Event>)
    ensures var m := Run(Created(), events);
            && (forall k :: 0 <= k < |m.found| ==>
                  && 1 <= m.found[k].attempt <= |m.attempts| && m.found[k].data == m.attempts[m.found[k].attempt - 1]
                  && m.found[k].floor <= m.found[k].attempt)
            && (forall j, k :: 0 <= j < k < |m.found| ==> m.found[j].attempt <= m.found[k].attempt)
  {
    RunKeeps(Created(), events);
  }

  lemma SuccessSettles(d: Disk, prior: Entry, data: Data, outcomes: seq<Outcome>)
    requires Coherent(d) && !d.fence.now && Sure(d, prior) && Succeeds(d, data, outcomes, 0)
    ensures var trace := Trace(d, data, outcomes, 0);
            |trace| == 12 && !trace[11].fence.now && Sure(trace[11], Named(Whole(data)))
  {
    hide Trace, Succeeds;
    ReadyToReplace(d, prior, data);
    SuccessIsFinal(0, d, prior, data, outcomes);
  }

  lemma SettledIsFound(m: Machine, data: Data, after: Disk, fenced: bool)
    requires 0 < |data| <= LIMIT && !after.fence.now && Sure(after, Named(Whole(data)))
    ensures var n := Step(Step(Concluded(m, data, after, 11, fenced, false, true), Exit), Open);
            && n.open && n.attempts == m.attempts + [data] && |n.found| == |m.found| + 1
            && n.found[..|m.found|] == m.found
            && n.found[|m.found|].data == data && n.found[|m.found|].attempt == |n.attempts|
  {}

  /** A record whose replacement succeeded is what the next process reads and logs. */
  lemma WrittenIsFound(m: Machine, data: Data, outcomes: seq<Outcome>)
    requires Inv(m) && m.open && !m.poisoned && 0 < |data| <= LIMIT
    requires forall n :: 0 <= n < 12 ==> OutcomeAt(outcomes, n).Done?
    ensures var n := Step(Step(Step(m, Replace(data, outcomes, None)), Exit), Open);
            && n.open && n.attempts == m.attempts + [data] && |n.found| == |m.found| + 1
            && n.found[..|m.found|] == m.found
            && n.found[|m.found|].data == data && n.found[|m.found|].attempt == |n.attempts|
  {
    var prior := EntryAt(m.attempts, m.held);
    ReplacementSucceedsIff(m.disk, prior, data, outcomes);
    SuccessSettles(m.disk, prior, data, outcomes);
    var trace := Trace(m.disk, data, outcomes, 0);
    SettledIsFound(m, data, trace[11], SyncReturned(11, outcomes));
    assert Step(m, Replace(data, outcomes, None)) ==
             Concluded(m, data, trace[11], 11, SyncReturned(11, outcomes), false, true) by {
      hide Trace, Succeeds, Inv, Concluded, SyncReturned, EntryAt;
    }
    hide *;
  }
}
