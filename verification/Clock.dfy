/** The suspend-aware clock of sdk/go/clock.go: an anchor carries a server time forward by elapsed time and
    accepts it only while the wall clock agrees. */
module Clock {
  import opened Common

  const SECOND := 1_000_000_000
  const LAST_SECOND := 253402300799 // 9999-12-31T23:59:59Z
  const DRIFT := 30

  datatype RequestStart = RequestStart(elapsed: int, wall: int)

  datatype TimeAnchor = TimeAnchor(server: int, start: RequestStart)

  /** One reading of both clocks; elapsed is None when the native clock fails. */
  datatype Sample = Sample(elapsed: Option<int>, wall: int)

  datatype Reading = Reading(now: int, wall: int)

  function CaptureStart(s: Sample): Option<RequestStart> {
    if s.elapsed.None? || s.wall < 0 then None else Some(RequestStart(s.elapsed.value, s.wall))
  }

  function NowWithWall(a: TimeAnchor, s: Sample): Option<Reading> {
    if s.elapsed.None? || s.elapsed.value < a.start.elapsed then None
    else
      var seconds := (s.elapsed.value - a.start.elapsed) / SECOND;
      if a.start.wall > MAX_INT64 - seconds || a.server > MAX_INT64 - seconds then None
      else
        var difference := s.wall - (a.start.wall + seconds);
        if difference < -DRIFT || difference > DRIFT then None else Some(Reading(a.server + seconds, s.wall))
  }

  function Now(a: TimeAnchor, s: Sample): Option<int> {
    match NowWithWall(a, s) case None => None case Some(r) => Some(r.now)
  }

  /** An accepted reading is at or past the anchor, and server progress matches wall progress within the drift. */
  lemma ReadingBounds(a: TimeAnchor, s: Sample)
    requires NowWithWall(a, s).Some?
    ensures var r := NowWithWall(a, s).value;
            && r.now >= a.server
            && -DRIFT <= (r.wall - a.start.wall) - (r.now - a.server) <= DRIFT
  {}

  /** k whole seconds have passed on the elapsed clock since the anchor. */
  predicate SecondsPassed(a: TimeAnchor, s: Sample, k: int) {
    s.elapsed.Some? && 0 <= k && k * SECOND <= s.elapsed.value - a.start.elapsed < (k + 1) * SECOND
  }

  /** A reading is accepted exactly when the elapsed clock works and has not gone back, nothing leaves the 64-bit range,
      and the wall clock has kept step within 30 seconds; it is the anchor's time and the whole seconds passed. */
  lemma ReadingIff(a: TimeAnchor, s: Sample, k: int)
    requires SecondsPassed(a, s, k)
    ensures NowWithWall(a, s) ==
              if a.start.wall + k <= MAX_INT64 && a.server + k <= MAX_INT64 && -30 <= s.wall - a.start.wall - k <= 30
              then Some(Reading(a.server + k, s.wall)) else None
    ensures Now(a, s).Some? ==> Now(a, s) == Some(a.server + k)
  {
    assert (s.elapsed.value - a.start.elapsed) / SECOND == k;
  }

  /** Otherwise there is no reading: the elapsed clock has failed or gone back. */
  lemma NoReading(a: TimeAnchor, s: Sample)
    requires s.elapsed.None? || s.elapsed.value < a.start.elapsed
    ensures NowWithWall(a, s).None? && Now(a, s).None?
  {}

  /** With an elapsed clock that never goes back, accepted readings of one anchor never go back. */
  lemma ReadingsMonotone(a: TimeAnchor, s: Sample, t: Sample)
    requires NowWithWall(a, s).Some? && NowWithWall(a, t).Some? && s.elapsed.value <= t.elapsed.value
    ensures NowWithWall(a, s).value.now <= NowWithWall(a, t).value.now
  {}

  // One anchor while a process lives: its elapsed clock never goes back.

  predicate OnTime(last: int, s: Sample) { s.elapsed.Some? ==> s.elapsed.value >= last }

  function Passed(last: int, s: Sample): int { if s.elapsed.Some? then s.elapsed.value else last }

  /** What the anchor reads when the elapsed clock reads last. */
  function Reached(a: TimeAnchor, last: int): int { a.server + (last - a.start.elapsed) / SECOND }

  lemma ReachedGrows(a: TimeAnchor, last: int, later: int)
    requires a.start.elapsed <= last <= later
    ensures a.server <= Reached(a, last) <= Reached(a, later)
  {}

  lemma ReadingIsReached(a: TimeAnchor, s: Sample)
    requires NowWithWall(a, s).Some?
    ensures s.elapsed.Some? && s.elapsed.value >= a.start.elapsed
    ensures NowWithWall(a, s).value.now == Reached(a, s.elapsed.value)
  {}

  function SaturatingAdd(a: int, b: int): int {
    if b > 0 && a > MAX_INT64 - b then MAX_INT64
    else if b < 0 && a < MIN_INT64 - b then MIN_INT64
    else a + b
  }

  /** On 64-bit operands, saturation clamps the true sum. */
  lemma SaturationClamps(a: int, b: int)
    requires MIN_INT64 <= a <= MAX_INT64 && MIN_INT64 <= b <= MAX_INT64
    ensures SaturatingAdd(a, b) == if a + b > MAX_INT64 then MAX_INT64 else if a + b < MIN_INT64 then MIN_INT64
        else a + b
  {}
}
