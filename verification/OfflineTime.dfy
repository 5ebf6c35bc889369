/** Offline files over whole lives of an installation (sdk/go/installed.go, sdk/go/access.go): imports, checkpoints,
    looks, every other transition, failed writes, crashes, reboots and rebinds, under any wall clock. The elapsed clock
    never goes back while one process lives, and generated installation IDs never repeat. */
module OfflineTime {
  import opened Common
  import opened Text
  import opened Clock
  import opened Access
  import opened InstalledRecord
  import opened RecordRuns
  import opened OfflineFiles

  /** A snapshot that reported Offline access from a file, and the highest time mark ever recorded by then for the
      installation the file is bound to. */
  datatype Report = Report(claims: OfflineClaims, now: int, mark: int)

  /** marks holds, for each installation ID, the highest time mark the medium has ever held; last is the last reading of
      the elapsed clock in this process. */
  datatype Life = Life(
    d: Device, runtime: Option<OfflineRuntime>, last: int, marks: map<Text, int>, reports: seq<Report>, files: Files,
        used: set<Text>)

  datatype Moment =
    | Start(keysGiven: bool, fingerprint: Option<Text>, provider: Option<Text>, newID: Text, sample: Sample, io: IO,
        fate: Fate)
    | Look(sample: Sample, io: IO)
    | CheckpointFile(sample: Sample, io: IO, fate: Fate)
    | Import(token: Text, begun: Sample, again: Sample, final: Sample, cancelled: bool, io: IO, fate: Fate, undo: IO,
        undoFate: Fate)
    | Other(op: Op, io: IO, fate: Fate, clears: bool)
    | End

  predicate Authorised(runtime: Option<OfflineRuntime>) { runtime.Some? && runtime.value.authorized }

  /** The marks after the medium has changed. */
  function Marked(marks: map<Text, int>, m: Medium): map<Text, int> {
    if m.Unusable? || m.record.offline.None? then marks
    else
      var id, mark := m.record.installation.id, m.record.offline.value.timeHighWater;
      marks[id := if id in marks then Max(marks[id], mark) else mark]
  }

  function Changed(w: Life, d: Device, runtime: Option<OfflineRuntime>, last: int): Life {
    w.(d := d, runtime := runtime, last := last, marks := Marked(w.marks, d.medium))
  }

  function Stopped(d: Device): Device { d.(live := None) }

  ghost function DoStart(w: Life, e: Moment): Life
    requires e.Start?
  {
    var booted := RecordRuns.Step(w.d, Boot);
    if w.d.live.Some? || e.newID in w.used || booted.live.None? || e.sample.elapsed.None? then w
    else
      var op := Rebind(e.fingerprint, e.provider, e.newID);
      var bound := Edited(booted, op, e.io, e.fate);
      var used := w.(used := w.used + {e.newID});
      if EditFails(booted, op, e.io) then Changed(used, Stopped(bound), None, e.sample.elapsed.value)
      else
        match Restore(bound.live.value.record, w.files, e.keysGiven, e.sample)
        case Err(_) => Changed(used, Stopped(bound), None, e.sample.elapsed.value)
        case Ok(runtime) => Changed(used, bound, runtime, e.sample.elapsed.value)
  }

  /** checkedSnapshot in offline file mode. */
  function DoLook(w: Life, e: Moment): Life
    requires e.Look? && w.d.live.Some? && Authorised(w.runtime)
  {
    if !InstalledRecord.Answers(w.d.live.value, e.io)
        then w.(runtime := Unauthorised(w.runtime), last := Passed(w.last, e.sample))
    else
      var o := w.runtime.value;
      var now := OfflineNow(o, e.sample);
      var shown := OfflineSnapshot(o, now);
      w.(runtime := Some(o.(uncertain := now.None?)), last := Passed(w.last, e.sample),
         reports := if shown.access == Offline then w.reports + [Reported(w, o, now.value)] else w.reports)
  }

  function Reported(w: Life, o: OfflineRuntime, now: int): Report
    requires o.claims.Some?
  {
    var id := o.claims.value.installationID;
    Report(o.claims.value, now, if id in w.marks then w.marks[id] else 0)
  }

  function DoCheckpoint(w: Life, e: Moment): Life
    requires e.CheckpointFile? && w.d.live.Some? && Authorised(w.runtime) && w.runtime.value.anchor.Some?
  {
    var o := w.runtime.value;
    match PlanCheckpoint(o, e.sample)
    case None => w.(runtime := Some(o.(uncertain := true)), last := Passed(w.last, e.sample))
    case Some(saved) =>
      var op := CheckpointOffline(saved);
      Changed(w, Edited(w.d, op, e.io, e.fate),
        Some(if EditFails(w.d, op, e.io) then o.(authorized := false)
            else o.(saved := saved, wallHighWater := saved.wallHighWater)),
        Passed(w.last, e.sample))
  }

  function DoImport(w: Life, e: Moment): Life
    requires e.Import? && w.d.live.Some?
  {
    var last := Passed(Passed(Passed(w.last, e.begun), e.again), e.final);
    var r := w.d.live.value.record;
    if !InstalledRecord.Answers(w.d.live.value, e.io) then w.(last := last)
    else
      match PlanImport(r, w.runtime, w.files, e.token, e.begun, e.again)
      case Err(_) => w.(last := last)
      case Ok(plan) =>
        var op := SaveOffline(r.generation, plan.saved);
        var d := Edited(w.d, op, e.io, e.fate);
        if EditFails(w.d, op, e.io) then Changed(w, d, Unauthorised(w.runtime), last)
        else if e.cancelled || Usable(plan, e.final).None? then
          var kept := Changed(w, d, Unauthorised(w.runtime), last);
          Changed(kept, Edited(d, Invalidate(true, true), e.undo, e.undoFate), kept.runtime, last)
        else
          var reading := Usable(plan, e.final).value;
          var next := Changed(w, d, Some(RuntimeFor(plan, reading.wall)), last);
          if OfflineSnapshot(next.runtime.value, Some(reading.now)).access == Offline then
            next.(reports := next.reports + [Reported(next, next.runtime.value, reading.now)])
          else next
  }

  predicate Ordinary(op: Op) { !op.SaveOffline? && !op.CheckpointOffline? && !op.Rebind? }

  ghost function Step(w: Life, e: Moment): Life {
    match e
    case Start(_, _, _, _, _, _, _) => DoStart(w, e)
    case End => w.(d := Stopped(w.d), runtime := None)
    case Look(sample, _) => if w.d.live.Some? && Authorised(w.runtime) && OnTime(w.last, sample) then DoLook(w, e)
        else w
    case CheckpointFile(sample, _, _) =>
      if w.d.live.Some? && Authorised(w.runtime) && w.runtime.value.anchor.Some? && OnTime(w.last, sample)
          then DoCheckpoint(w, e) else w
    case Import(_, begun, again, final, _, _, _, _, _) =>
      if w.d.live.Some? && OnTime(w.last, begun) && OnTime(Passed(w.last, begun), again)
         && OnTime(Passed(Passed(w.last, begun), again), final) then DoImport(w, e)
      else w
    case Other(op, io, fate, clears) =>
      if w.d.live.None? || !Ordinary(op) then w
      else Changed(w, Edited(w.d, op, io, fate), if clears then Unauthorised(w.runtime) else w.runtime, w.last)
  }

  ghost function Run(w: Life, moments: seq<Moment>): Life
    decreases |moments|
  {
    if moments == [] then w else Run(Step(w, moments[0]), moments[1..])
  }

  /** A new installation, not yet started. */
  function Fresh(scope: Scope, provider: Text, installation: Identity, files: Files): Life {
    Life(Stopped(Created(scope, provider, installation)), None, 0, map[], [], files, {installation.id})
  }

  // ----- What every step keeps -----

  predicate MarksFollow(marks: map<Text, int>, m: Medium) {
    m.Holds? ==>
      if m.record.offline.None? then m.record.installation.id !in marks
      else m.record.installation.id in marks && marks[m.record.installation.id] == m.record.offline.value.timeHighWater
  }

  predicate Bound(marks: map<Text, int>, m: Medium, used: set<Text>) {
    && (forall id :: id in marks ==> id in used)
    && (m.Holds? ==> m.record.installation.id in used)
  }

  /** The running file's clock has reached the mark on the medium. */
  predicate ClockLeads(o: OfflineRuntime, m: Medium, last: int) {
    && o.claims.Some? && o.anchor.Some? && last >= o.anchor.value.start.elapsed
    && (m.Holds? ==>
          && m.record.installation.id == o.claims.value.installationID
          && m.record.offline.Some? && m.record.offline.value.timeHighWater <= Reached(o.anchor.value, last))
  }

  predicate TrueReport(r: Report) { r.mark <= r.now < r.claims.expiresAt }

  ghost predicate Inv(w: Life) {
    && RecordRuns.Inv(w.d)
    && MarksFollow(w.marks, w.d.medium) && Bound(w.marks, w.d.medium, w.used)
    && (Authorised(w.runtime) ==> w.d.live.Some? && ClockLeads(w.runtime.value, w.d.medium, w.last))
    && (forall k :: 0 <= k < |w.reports| ==> TrueReport(w.reports[k]))
  }

  /** Marks only rise. */
  predicate Rises(a: map<Text, int>, b: map<Text, int>) { forall id :: id in a ==> id in b && a[id] <= b[id] }

  // ----- The medium -----

  /** The offline record on the medium keeps its owner and its time mark under every ordinary transition. */
  lemma OrdinaryKeepsMarks(r: Record, op: Op)
    requires Ordinary(op) && EditFor(r, op).Put?
    ensures var t := EditFor(r, op).record;
            && t.installation.id == r.installation.id && (t.offline.Some? <==> r.offline.Some?)
            && (t.offline.Some? ==> t.offline.value.timeHighWater == r.offline.value.timeHighWater)
  {}

  predicate SameMark(a: Medium, b: Medium) {
    a.Holds? && b.Holds? ==>
      && b.record.installation.id == a.record.installation.id && (b.record.offline.Some? <==> a.record.offline.Some?)
      && (b.record.offline.Some? ==> b.record.offline.value.timeHighWater == a.record.offline.value.timeHighWater)
  }

  lemma OrdinaryIsSameMark(d: Device, op: Op, after: Medium)
    requires d.live.Some? && Ordinary(op) && Lands(d, op, after)
    ensures SameMark(d.medium, after) && (after.Holds? ==> d.medium.Holds?)
  {
    if EditFor(d.live.value.record, op).Put? { OrdinaryKeepsMarks(d.live.value.record, op); }
    hide EditFor;
  }

  lemma SameMarkKeeps(w: Life, d: Device, runtime: Option<OfflineRuntime>, last: int)
    requires Inv(w) && RecordRuns.Inv(d) && SameMark(w.d.medium, d.medium) && (d.medium.Holds? ==> w.d.medium.Holds?)
    requires last >= w.last && (Authorised(runtime) ==> d.live.Some? && ClockLeads(runtime.value, w.d.medium, w.last))
    ensures Inv(Changed(w, d, runtime, last)) && Rises(w.marks, Changed(w, d, runtime, last).marks)
  {
    hide RecordRuns.Inv;
    if Authorised(runtime) { ReachedGrows(runtime.value.anchor.value, w.last, last); }
  }

  // ----- Step by step -----

  ghost predicate Kept(w: Life, v: Life) { Inv(v) && Rises(w.marks, v.marks) && v.files == w.files && Extends(w, v) }

  /** Reports are only added, and new ones carry at least the marks from before. */
  predicate Extends(w: Life, v: Life) {
    && |w.reports| <= |v.reports|
    && (forall k :: 0 <= k < |w.reports| ==> v.reports[k] == w.reports[k])
    && (forall k :: |w.reports| <= k < |v.reports| ==>
          v.reports[k].claims.installationID in w.marks ==>
              w.marks[v.reports[k].claims.installationID] <= v.reports[k].mark)
  }

  lemma RestoredClockLeads(r: Record, files: Files, keysGiven: bool, s: Sample)
    requires Restore(r, files, keysGiven, s).Ok? && s.elapsed.Some?
    ensures var runtime := Restore(r, files, keysGiven, s).value;
            Authorised(runtime) ==> ClockLeads(runtime.value, Holds(r), s.elapsed.value)
  {}

  lemma RebindKeepsMarks(w: Life, newID: Text, op: Op, after: Medium)
    requires Inv(w) && newID !in w.used && op.Rebind? && op.newID == newID
    requires after == w.d.medium || after == Unusable
             || (w.d.medium.Holds? && EditFor(w.d.medium.record, op).Put?
                 && after == Holds(Stamped(EditFor(w.d.medium.record, op).record)))
    ensures MarksFollow(Marked(w.marks, after), after) && Bound(Marked(w.marks, after), after, w.used + {newID})
        && Rises(w.marks, Marked(w.marks, after))
  {}

  /** The device bound at a start, not yet running a file. */
  lemma BoundKeeps(w: Life, d: Device, used: set<Text>, last: int)
    requires Inv(w) && RecordRuns.Inv(d) && MarksFollow(Marked(w.marks, d.medium), d.medium)
    requires Bound(Marked(w.marks, d.medium), d.medium, used) && Rises(w.marks, Marked(w.marks, d.medium))
    ensures Kept(w, Changed(w.(used := used), d, None, last))
  {
    hide RecordRuns.Inv, MarksFollow, Bound, Marked, ClockLeads, Rises;
  }

  lemma RunningKeeps(w: Life, v: Life, runtime: Option<OfflineRuntime>)
    requires Kept(w, v) && (Authorised(runtime) ==> v.d.live.Some? && ClockLeads(runtime.value, v.d.medium, v.last))
    ensures Kept(w, v.(runtime := runtime))
  {
    hide RecordRuns.Inv, MarksFollow, Bound, ClockLeads, Rises;
  }

  lemma StartKeeps(w: Life, e: Moment)
    requires Inv(w) && e.Start?
    ensures Kept(w, DoStart(w, e))
  {
    var booted := RecordRuns.Step(w.d, Boot);
    RecordRuns.StepKeeps(w.d, Boot);
    NothingIsKept(w);
    if w.d.live.None? && e.newID !in w.used && booted.live.Some? && e.sample.elapsed.Some? {
      StartedKeeps(w, booted, e);
    }
    hide Edited, Restore, Decodable, Kept, Inv, RecordRuns.Inv, EditFor;
  }

  lemma NothingIsKept(w: Life)
    requires Inv(w)
    ensures Kept(w, w)
  {
    hide Inv;
  }

  lemma StartedKeeps(w: Life, booted: Device, e: Moment)
    requires Inv(w) && e.Start? && e.newID !in w.used && e.sample.elapsed.Some?
    requires RecordRuns.Inv(booted) && booted.live.Some? && booted.medium == w.d.medium
        && booted == w.d.(live := booted.live)
    ensures var op := Rebind(e.fingerprint, e.provider, e.newID);
            var bound := Edited(booted, op, e.io, e.fate);
            var used := w.(used := w.used + {e.newID});
            && bound.live.Some? && Kept(w, Changed(used, Stopped(bound), None, e.sample.elapsed.value))
            && (!EditFails(booted, op, e.io) && Restore(bound.live.value.record, w.files, e.keysGiven, e.sample).Ok? ==>
                  Kept(w, Changed(used, bound, Restore(bound.live.value.record, w.files, e.keysGiven, e.sample).value,
                      e.sample.elapsed.value)))
  {
    var op := Rebind(e.fingerprint, e.provider, e.newID);
    EditedLands(booted, op, e.io, e.fate);
    hide RecordRuns.Inv, Restore, Edited, EditFor, MarksFollow, Bound, Rises, Marked, ClockLeads, Kept, EditFails;
    var bound := Edited(booted, op, e.io, e.fate);
    StoppedKeeps(bound);
    RebindKeepsMarks(w, e.newID, op, bound.medium);
    BoundKeeps(w, Stopped(bound), w.used + {e.newID}, e.sample.elapsed.value);
    BoundKeeps(w, bound, w.used + {e.newID}, e.sample.elapsed.value);
    if !EditFails(booted, op, e.io) && Restore(bound.live.value.record, w.files, e.keysGiven, e.sample).Ok? {
      RestoredClockLeads(bound.live.value.record, w.files, e.keysGiven, e.sample);
      var idle := Changed(w.(used := w.used + {e.newID}), bound, None, e.sample.elapsed.value);
      RunningKeeps(w, idle, Restore(bound.live.value.record, w.files, e.keysGiven, e.sample).value);
    }
  }

  lemma StoppedKeeps(d: Device)
    requires RecordRuns.Inv(d)
    ensures RecordRuns.Inv(Stopped(d))
  {
    hide Exclusive;
  }

  lemma LookKeeps(w: Life, e: Moment)
    requires Inv(w) && e.Look? && w.d.live.Some? && Authorised(w.runtime) && OnTime(w.last, e.sample)
    ensures Kept(w, DoLook(w, e))
  {
    var o := w.runtime.value;
    ReachedGrows(o.anchor.value, w.last, Passed(w.last, e.sample));
    if OfflineNow(o, e.sample).Some? { ReadingIsReached(o.anchor.value, e.sample); }
    hide SentInOrder, AuthorisedInOrder, Exclusive, NowWithWall;
  }

  lemma CheckpointPlanLeads(o: OfflineRuntime, s: Sample, last: int)
    requires o.anchor.Some? && OnTime(last, s) && PlanCheckpoint(o, s).Some?
    ensures PlanCheckpoint(o, s).value.timeHighWater == Reached(o.anchor.value, s.elapsed.value)
    ensures s.elapsed.Some? && s.elapsed.value >= o.anchor.value.start.elapsed
  {
    ReadingIsReached(o.anchor.value, s);
  }

  lemma CheckpointKeeps(w: Life, e: Moment)
    requires Inv(w) && e.CheckpointFile? && w.d.live.Some? && Authorised(w.runtime) && OnTime(w.last, e.sample)
    ensures w.runtime.value.anchor.Some?
    ensures Kept(w, DoCheckpoint(w, e))
  {
    var o := w.runtime.value;
    ReachedGrows(o.anchor.value, w.last, Passed(w.last, e.sample));
    var plan := PlanCheckpoint(o, e.sample);
    if plan.Some? {
      var op := CheckpointOffline(plan.value);
      CheckpointPlanLeads(o, e.sample, w.last);
      EditedLands(w.d, op, e.io, e.fate);
    }
    hide RecordRuns.Inv, Edited, PlanCheckpoint, Reached;
  }

  lemma SavedClockLeads(w: Life, plan: Plan, token: Text, begun: Sample, again: Sample, last: int, wall: int)
    requires Inv(w) && w.d.live.Some? && last >= plan.anchor.start.elapsed
    requires PlanImport(w.d.live.value.record, w.runtime, w.files, token, begun, again) == Ok(plan)
    requires EditFor(w.d.live.value.record, SaveOffline(w.d.live.value.record.generation, plan.saved)).Put?
    ensures var t := Stamped(EditFor(w.d.live.value.record,
        SaveOffline(w.d.live.value.record.generation, plan.saved)).record);
            && ClockLeads(RuntimeFor(plan, wall), Holds(t), last)
            && (w.d.medium == Holds(w.d.live.value.record) ==>
                  MarksFollow(Marked(w.marks, Holds(t)), Holds(t)) && Bound(Marked(w.marks, Holds(t)), Holds(t), w.used)
                      && Rises(w.marks, Marked(w.marks, Holds(t))))
  {
    PlansNeverRewind(w.d.live.value.record, w.runtime, w.files, token, begun, again);
    ReachedGrows(plan.anchor, plan.anchor.start.elapsed, last);
    hide PlanImport, RecordRuns.Inv, Reached;
  }

  lemma PlanStartsNow(r: Record, runtime: Option<OfflineRuntime>, files: Files, token: Text, begun: Sample,
      again: Sample)
    requires PlanImport(r, runtime, files, token, begun, again).Ok?
    ensures begun.elapsed == Some(PlanImport(r, runtime, files, token, begun, again).value.anchor.start.elapsed)
  {
    hide NowWithWall, Verify;
  }

  lemma UnchangedMarks(w: Life, m: Medium)
    requires Inv(w) && (m == w.d.medium || m == Unusable)
    ensures MarksFollow(Marked(w.marks, m), m) && Bound(Marked(w.marks, m), m, w.used)
        && Rises(w.marks, Marked(w.marks, m))
  {
    hide RecordRuns.Inv;
  }

  /** After an import has tried to save, with or without success. */
  lemma ImportSavedKeeps(w: Life, e: Moment, plan: Plan, runtime: Option<OfflineRuntime>, last: int, wall: int)
    requires Inv(w) && e.Import? && w.d.live.Some?
    requires PlanImport(w.d.live.value.record, w.runtime, w.files, e.token, e.begun, e.again) == Ok(plan)
    requires last >= w.last && last >= plan.anchor.start.elapsed
    requires var op := SaveOffline(w.d.live.value.record.generation, plan.saved);
             !Authorised(runtime) || (!EditFails(w.d, op, e.io) && runtime == Some(RuntimeFor(plan, wall)))
    ensures var op := SaveOffline(w.d.live.value.record.generation, plan.saved);
            Kept(w, Changed(w, Edited(w.d, op, e.io, e.fate), runtime, last))
    ensures var op := SaveOffline(w.d.live.value.record.generation, plan.saved);
            !EditFails(w.d, op, e.io) ==>
              var v := Changed(w, Edited(w.d, op, e.io, e.fate), runtime, last);
              plan.claims.installationID in v.marks && v.marks[plan.claims.installationID] == plan.saved.timeHighWater
  {
    var op := SaveOffline(w.d.live.value.record.generation, plan.saved);
    var d := Edited(w.d, op, e.io, e.fate);
    EditedLands(w.d, op, e.io, e.fate);
    PlansNeverRewind(w.d.live.value.record, w.runtime, w.files, e.token, e.begun, e.again);
    if EditFor(w.d.live.value.record, op).Put? {
      SavedClockLeads(w, plan, e.token, e.begun, e.again, last, wall);
    }
    if d.medium == w.d.medium || d.medium == Unusable { UnchangedMarks(w, d.medium); }
    hide RecordRuns.Inv, Edited, PlanImport, Reached, EditFor, MarksFollow, Bound, Rises, ClockLeads;
  }

  lemma UndoKeeps(w: Life, v: Life, undo: IO, undoFate: Fate)
    requires Kept(w, v) && v.d.live.Some? && !Authorised(v.runtime)
    ensures Kept(w, Changed(v, Edited(v.d, Invalidate(true, true), undo, undoFate), v.runtime, v.last))
  {
    var op := Invalidate(true, true);
    EditedLands(v.d, op, undo, undoFate);
    OrdinaryIsSameMark(v.d, op, Edited(v.d, op, undo, undoFate).medium);
    SameMarkKeeps(v, Edited(v.d, op, undo, undoFate), v.runtime, v.last);
    hide Edited, Inv, EditFor, SameMark;
  }

  lemma ReportedKeeps(w: Life, v: Life, r: Report)
    requires Kept(w, v) && TrueReport(r) && r.claims.installationID in v.marks
        && r.mark == v.marks[r.claims.installationID]
    ensures Kept(w, v.(reports := v.reports + [r]))
  {
    hide RecordRuns.Inv, Reached, MarksFollow, Bound;
  }

  lemma PassingKeeps(w: Life, runtime: Option<OfflineRuntime>, last: int)
    requires Inv(w) && last >= w.last && (runtime == w.runtime || !Authorised(runtime))
    ensures Kept(w, w.(runtime := runtime, last := last))
  {
    if Authorised(w.runtime) { ReachedGrows(w.runtime.value.anchor.value, w.last, last); }
    hide RecordRuns.Inv, Reached, MarksFollow, Bound;
  }

  lemma ImportKeeps(w: Life, e: Moment)
    requires Inv(w) && e.Import? && w.d.live.Some?
    requires OnTime(w.last, e.begun) && OnTime(Passed(w.last, e.begun), e.again)
        && OnTime(Passed(Passed(w.last, e.begun), e.again), e.final)
    ensures Kept(w, DoImport(w, e))
  {
    var last := Passed(Passed(Passed(w.last, e.begun), e.again), e.final);
    var r := w.d.live.value.record;
    PassingKeeps(w, w.runtime, last);
    var planned := PlanImport(r, w.runtime, w.files, e.token, e.begun, e.again);
    if InstalledRecord.Answers(w.d.live.value, e.io) && planned.Ok? {
      var plan := planned.value;
      PlanStartsNow(r, w.runtime, w.files, e.token, e.begun, e.again);
      var op := SaveOffline(r.generation, plan.saved);
      EditedLands(w.d, op, e.io, e.fate);
      var d := Edited(w.d, op, e.io, e.fate);
      ImportSavedKeeps(w, e, plan, Unauthorised(w.runtime), last, 0);
      hide Edited, PlanImport, Kept, Inv, EditFails, EditFor;
      if !EditFails(w.d, op, e.io) {
        if e.cancelled || Usable(plan, e.final).None? {
          UndoKeeps(w, Changed(w, d, Unauthorised(w.runtime), last), e.undo, e.undoFate);
        } else {
          var reading := Usable(plan, e.final).value;
          var runtime := RuntimeFor(plan, reading.wall);
          ImportSavedKeeps(w, e, plan, Some(runtime), last, reading.wall);
          var next := Changed(w, d, Some(runtime), last);
          if OfflineSnapshot(runtime, Some(reading.now)).access == Offline {
            ReportedKeeps(w, next, Reported(next, runtime, reading.now));
          }
        }
      }
    }
  }

  lemma OtherKeeps(w: Life, op: Op, io: IO, fate: Fate, runtime: Option<OfflineRuntime>)
    requires Inv(w) && w.d.live.Some? && Ordinary(op) && (runtime == w.runtime || !Authorised(runtime))
    ensures Kept(w, Changed(w, Edited(w.d, op, io, fate), runtime, w.last))
  {
    EditedLands(w.d, op, io, fate);
    OrdinaryIsSameMark(w.d, op, Edited(w.d, op, io, fate).medium);
    SameMarkKeeps(w, Edited(w.d, op, io, fate), runtime, w.last);
    hide Edited, EditFor, SameMark;
  }

  lemma StepKeeps(w: Life, e: Moment)
    requires Inv(w)
    ensures Kept(w, Step(w, e))
  {
    match e {
      case Start(_, _, _, _, _, _, _) => StartKeeps(w, e);
      case End => RecordRuns.StepKeeps(w.d, Stop);
      case Look(sample, _) => if w.d.live.Some? && Authorised(w.runtime) && OnTime(w.last, sample) { LookKeeps(w, e); }
      case CheckpointFile(sample, _, _) =>
        if w.d.live.Some? && Authorised(w.runtime) && OnTime(w.last, sample) { CheckpointKeeps(w, e); }
      case Import(_, begun, again, final, _, _, _, _, _) =>
        if w.d.live.Some? && OnTime(w.last, begun) && OnTime(Passed(w.last, begun), again)
           && OnTime(Passed(Passed(w.last, begun), again), final) { ImportKeeps(w, e); }
      case Other(op, io, fate, clears) =>
        if w.d.live.Some? && Ordinary(op) {
          OtherKeeps(w, op, io, fate, if clears then Unauthorised(w.runtime) else w.runtime);
        }
    }
    hide DoStart, DoLook, DoCheckpoint, DoImport, Edited, RecordRuns.Inv, ClockLeads, MarksFollow, Bound;
  }

  lemma KeptTwice(u: Life, v: Life, w: Life)
    requires Kept(u, v) && Kept(v, w)
    ensures Kept(u, w)
  {
    hide Inv;
    forall k | |u.reports| <= k < |w.reports| && w.reports[k].claims.installationID in u.marks
      ensures u.marks[w.reports[k].claims.installationID] <= w.reports[k].mark
    {
      if k < |v.reports| { assert w.reports[k] == v.reports[k]; }
    }
  }

  lemma {:induction false} RunKeeps(w: Life, moments: seq<Moment>)
    requires Inv(w)
    ensures Kept(w, Run(w, moments))
    decreases |moments|
  {
    if moments != [] {
      StepKeeps(w, moments[0]);
      RunKeeps(Step(w, moments[0]), moments[1..]);
      KeptTwice(w, Step(w, moments[0]), Run(w, moments));
    } else {
      hide Inv;
    }
  }

  // ----- The results -----

  /** A file's time cannot be rewound. Once the medium has held a time mark, no snapshot of any later life of that
      installation reports Offline access from a file that expires at or before the mark, whatever is imported or
      re-imported, whatever the wall clock says, and whatever else happens. */
  lemma ExpiredFilesNeverReturn(scope: Scope, provider: Text, installation: Identity, files: Files, before: seq<Moment>,
      after: seq<Moment>)
    ensures var w := Run(Fresh(scope, provider, installation, files), before);
            var v := Run(w, after);
            w.d.medium.Holds? && w.d.medium.record.offline.Some? ==>
              var r := w.d.medium.record;
              forall k :: |w.reports| <= k < |v.reports| && v.reports[k].claims.installationID == r.installation.id ==>
                v.reports[k].claims.expiresAt > r.offline.value.timeHighWater
  {
    var w := Run(Fresh(scope, provider, installation, files), before);
    var v := Run(w, after);
    RunKeeps(Fresh(scope, provider, installation, files), before);
    RunKeeps(w, after);
    forall k | w.d.medium.Holds? && w.d.medium.record.offline.Some? && |w.reports| <= k < |v.reports|
               && v.reports[k].claims.installationID == w.d.medium.record.installation.id
      ensures v.reports[k].claims.expiresAt > w.d.medium.record.offline.value.timeHighWater
    {
      assert TrueReport(v.reports[k]);
    }
  }

  /** A successful checkpoint records at least the time it was made at, so a file past its expiry is retired by it. */
  lemma CheckpointRecordsItsTime(w: Life, e: Moment)
    requires Inv(w) && e.CheckpointFile? && w.d.live.Some? && Authorised(w.runtime) && OnTime(w.last, e.sample)
    requires var o := w.runtime.value; o.anchor.Some? && PlanCheckpoint(o, e.sample).Some?
    requires !EditFails(w.d, CheckpointOffline(PlanCheckpoint(w.runtime.value, e.sample).value), e.io)
    ensures var v := Step(w, e);
            && v.d.medium.Holds? && v.d.medium.record.offline.Some?
            && v.d.medium.record.offline.value.timeHighWater == NowWithWall(w.runtime.value.anchor.value,
                e.sample).value.now
  {
    EditedLands(w.d, CheckpointOffline(PlanCheckpoint(w.runtime.value, e.sample).value), e.io, e.fate);
    hide Edited, RecordRuns.Inv, NowWithWall;
  }

  /** A look reports the file exactly when storage answers, the clocks can be trusted and the file has not expired. */
  lemma LookReportsIff(w: Life, e: Moment)
    requires Inv(w) && e.Look? && w.d.live.Some? && Authorised(w.runtime) && OnTime(w.last, e.sample)
    ensures var o := w.runtime.value;
            var shows := InstalledRecord.Answers(w.d.live.value, e.io) && OfflineNow(o, e.sample).Some?
              && OfflineNow(o, e.sample).value < o.claims.value.expiresAt;
            (|Step(w, e).reports| == |w.reports| + 1 <==> shows) && (|Step(w, e).reports| == |w.reports| <==> !shows)
  {
    hide OfflineNow, RecordRuns.Inv;
  }
}
