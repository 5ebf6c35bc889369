/** The timestamp reader of sdk/cpp/src/core.cpp against the texts of RFC 3339 section 5.6 it is meant to read: whole
    seconds, with up to nine zeros as a fraction, in UTC or with an offset. */
module Timestamp {
  import opened Common
  import opened Text
  import Calendar

  datatype Zone = Utc | Offset(negative: bool, hour: nat, minute: nat)

  /** zeros is the number of digits of the fraction, 0 for no fraction. */
  datatype Moment = Moment(year: nat, month: nat, day: nat, hour: nat, minute: nat, second: nat, zeros: nat, zone: Zone)

  predicate ValidDay(m: Moment) {
    1 <= m.month <= 12 && 1 <= m.day <= Calendar.MonthDays(m.year, m.month)
  }

  predicate Valid(m: Moment) {
    && m.year <= 9999 && ValidDay(m) && m.hour <= 23 && m.minute <= 59 && m.second <= 59 && m.zeros <= 9
    && (m.zone.Offset? ==> m.zone.hour <= 23 && m.zone.minute <= 59)
  }

  // ----- The texts -----

  function Two(n: nat): Text
    requires n <= 99
  {
    [48 + n / 10, 48 + n % 10]
  }

  function Four(n: nat): Text
    requires n <= 9999
  {
    Two(n / 100) + Two(n % 100)
  }

  function Zeros(n: nat): (t: Text)
    ensures |t| == n && forall k :: 0 <= k < n ==> t[k] == 48
  {
    seq(n, k => 48)
  }

  function FractionText(zeros: nat): Text { if zeros == 0 then [] else [46] + Zeros(zeros) }

  function ZoneText(z: Zone): Text
    requires z.Offset? ==> z.hour <= 23 && z.minute <= 59
  {
    match z
    case Utc => [90]
    case Offset(negative, hour, minute) => [if negative then 45 else 43] + Two(hour) + [58] + Two(minute)
  }

  function DateTimeText(m: Moment): (t: Text)
    requires Valid(m)
    ensures |t| == 19
  {
    Four(m.year) + [45] + Two(m.month) + [45] + Two(m.day) + [84] + Two(m.hour) + [58] + Two(m.minute) + [58] + Two(m.second)
  }

  function Render(m: Moment): Text
    requires Valid(m)
  {
    DateTimeText(m) + (FractionText(m.zeros) + ZoneText(m.zone))
  }

  function OffsetSeconds(z: Zone): int {
    match z
    case Utc => 0
    case Offset(negative, hour, minute) => if negative then -((hour * 60 + minute) * 60) else (hour * 60 + minute) * 60
  }

  /** Seconds since the epoch, counted in days from the calendar that is stepped day by day. */
  function Seconds(m: Moment): int
    requires ValidDay(m)
  {
    Calendar.Days(Calendar.Date(m.year, m.month,
        m.day)) * 86400 + m.hour * 3600 + m.minute * 60 + m.second - OffsetSeconds(m.zone)
  }

  // ----- Reading digits -----

  predicate Digit(c: byte) { 48 <= c <= 57 }

  predicate Digits(t: Text) { forall k :: 0 <= k < |t| ==> Digit(t[k]) }

  function DigitAt(t: Text, k: nat): int
    requires k < |t|
  {
    var c: int := t[k];
    c - 48
  }

  function Value(t: Text): int { if t == [] then 0 else Value(t[..|t| - 1]) * 10 + DigitAt(t, |t| - 1) }

  method Number(t: Text) returns (r: Option<int>)
    ensures r == if Digits(t) then Some(Value(t)) else None
  {
    var result, i := 0, 0;
    while i < |t|
      invariant 0 <= i <= |t| && Digits(t[..i]) && result == Value(t[..i])
    {
      if t[i] < 48 || t[i] > 57 { return None; }
      assert t[..i + 1][..i] == t[..i];
      var digit: int := t[i];
      result := result * 10 + (digit - 48);
      i := i + 1;
    }
    assert t[..|t|] == t;
    return Some(result);
  }

  lemma TwoReads(n: nat)
    requires n <= 99
    ensures Digits(Two(n)) && Value(Two(n)) == n
  {
    var t := Two(n);
    assert Value(t[..1]) == Value(t[..1][..0]) * 10 + DigitAt(t, 0);
  }

  lemma TwoWrites(t: Text)
    requires |t| == 2 && Digits(t)
    ensures 0 <= Value(t) <= 99 && Two(Value(t)) == t
  {
    assert Value(t[..1]) == Value(t[..1][..0]) * 10 + DigitAt(t, 0);
    assert t == [t[0], t[1]];
  }

  lemma FourSplits(t: Text)
    requires |t| == 4 && Digits(t)
    ensures Value(t) == Value(t[..2]) * 100 + Value(t[2..])
  {
    assert t[..3][..2] == t[..2] && t[2..][..1] == [t[2]] && t[..3][2] == t[2];
    assert Value(t[..3]) == Value(t[..2]) * 10 + DigitAt(t, 2);
    assert Value([t[2]]) == Value([t[2]][..0]) * 10 + DigitAt([t[2]], 0);
    assert DigitAt(t[..3], 2) == DigitAt(t, 2) && DigitAt(t[2..], 1) == DigitAt(t, 3);
  }

  lemma FourReads(n: nat)
    requires n <= 9999
    ensures Digits(Four(n)) && Value(Four(n)) == n
  {
    TwoReads(n / 100);
    TwoReads(n % 100);
    FourSplits(Four(n));
    assert Four(n)[..2] == Two(n / 100) && Four(n)[2..] == Two(n % 100);
    hide Value, Two;
  }

  lemma FourWrites(t: Text)
    requires |t| == 4 && Digits(t)
    ensures 0 <= Value(t) <= 9999 && Four(Value(t)) == t
  {
    TwoWrites(t[..2]);
    TwoWrites(t[2..]);
    FourSplits(t);
    assert t == t[..2] + t[2..];
    assert Value(t) / 100 == Value(t[..2]) && Value(t) % 100 == Value(t[2..]);
    hide Value, Two;
  }

  // ----- Reading -----

  predicate Shaped(t: Text) {
    && |t| >= 20 && t[4] == 45 && t[7] == 45 && t[10] == 84 && t[13] == 58 && t[16] == 58
    && Digits(t[..4]) && Digits(t[5..7]) && Digits(t[8..10]) && Digits(t[11..13]) && Digits(t[14..16])
        && Digits(t[17..19])
  }

  /** How many zeros follow from i on. */
  function ZerosFrom(t: Text, i: nat): (n: nat)
    requires i <= |t|
    ensures i + n <= |t| && (forall k :: i <= k < i + n ==> t[k] == 48) && (i + n < |t| ==> t[i + n] != 48)
    decreases |t| - i
  {
    if i < |t| && t[i] == 48 then 1 + ZerosFrom(t, i + 1) else 0
  }

  /** The zone that makes up the whole rest of the text. */
  function ReadZone(rest: Text): Option<Zone> {
    if rest == [90] then Some(Utc)
    else if |rest| == 6 && rest[0] in {43, 45} && rest[3] == 58 && Digits(rest[1..3]) && Digits(rest[4..6])
            && 0 <= Value(rest[1..3]) <= 23 && 0 <= Value(rest[4..6]) <= 59
    then Some(Offset(rest[0] == 45, Value(rest[1..3]), Value(rest[4..6])))
    else None
  }

  predicate InRange(t: Text)
    requires Shaped(t)
  {
    && 0 <= Value(t[..4]) && 1 <= Value(t[5..7]) <= 12
    && 1 <= Value(t[8..10]) <= Calendar.MonthDays(Value(t[..4]), Value(t[5..7]))
    && 0 <= Value(t[11..13]) <= 23 && 0 <= Value(t[14..16]) <= 59 && 0 <= Value(t[17..19]) <= 59
  }

  function Fraction(t: Text): Option<nat>
    requires |t| >= 20
  {
    if t[19] != 46 then Some(0)
    else
      var n := ZerosFrom(t, 20);
      if 1 <= n <= 9 then Some(n) else None
  }

  function Parse(t: Text): Option<Moment> {
    if !Shaped(t) || !InRange(t) || Fraction(t).None? then None
    else
      var zeros := Fraction(t).value;
      var suffix := if zeros == 0 then 19 else 20 + zeros;
      match ReadZone(t[suffix..])
      case None => None
      case Some(zone) =>
        Some(Moment(Value(t[..4]), Value(t[5..7]), Value(t[8..10]), Value(t[11..13]), Value(t[14..16]),
            Value(t[17..19]), zeros, zone))
  }

  // ----- Exactness -----

  lemma {:induction false} ZerosAreCounted(t: Text, i: nat, n: nat)
    requires i + n <= |t| && (forall k :: i <= k < i + n ==> t[k] == 48) && (i + n < |t| ==> t[i + n] != 48)
    ensures ZerosFrom(t, i) == n
    decreases n
  {
    if n > 0 { ZerosAreCounted(t, i + 1, n - 1); }
  }

  lemma ZoneReads(z: Zone)
    requires z.Offset? ==> z.hour <= 23 && z.minute <= 59
    ensures ZoneText(z) != [] && ZoneText(z)[0] in {43, 45, 90} && ReadZone(ZoneText(z)) == Some(z)
  {
    if z.Offset? {
      TwoReads(z.hour);
      TwoReads(z.minute);
      assert ZoneText(z)[1..3] == Two(z.hour) && ZoneText(z)[4..6] == Two(z.minute);
    }
    hide Value;
  }

  lemma ZoneWrites(rest: Text)
    requires ReadZone(rest).Some?
    ensures var z := ReadZone(rest).value; (z.Offset? ==> z.hour <= 23 && z.minute <= 59) && ZoneText(z) == rest
  {
    if rest != [90] {
      TwoWrites(rest[1..3]);
      TwoWrites(rest[4..6]);
      hide Value, Two;
      var z := ReadZone(rest).value;
      assert rest == [rest[0]] + rest[1..3] + [rest[3]] + rest[4..6];
    }
  }

  lemma FieldsRead(m: Moment, t: Text)
    requires Valid(m) && |t| >= 20 && t[..19] == DateTimeText(m)
    ensures Shaped(t) && InRange(t)
    ensures Value(t[..4]) == m.year && Value(t[5..7]) == m.month && Value(t[8..10]) == m.day
    ensures Value(t[11..13]) == m.hour && Value(t[14..16]) == m.minute && Value(t[17..19]) == m.second
  {
    FourReads(m.year);
    TwoReads(m.month);
    TwoReads(m.day);
    TwoReads(m.hour);
    TwoReads(m.minute);
    TwoReads(m.second);
    FieldsAreSlices(m, t);
    hide Value, Two, Four, DateTimeText;
  }

  lemma FieldsAreSlices(m: Moment, t: Text)
    requires Valid(m) && |t| >= 20 && t[..19] == DateTimeText(m)
    ensures t[..4] == Four(m.year) && t[5..7] == Two(m.month) && t[8..10] == Two(m.day)
    ensures t[11..13] == Two(m.hour) && t[14..16] == Two(m.minute) && t[17..19] == Two(m.second)
    ensures t[4] == 45 && t[7] == 45 && t[10] == 84 && t[13] == 58 && t[16] == 58
  {
    var u := t[..19];
    assert u[..4] == t[..4] && u[5..7] == t[5..7] && u[8..10] == t[8..10] && u[11..13] == t[11..13]
        && u[14..16] == t[14..16] && u[17..19] == t[17..19];
    assert u[4] == t[4] && u[7] == t[7] && u[10] == t[10] && u[13] == t[13] && u[16] == t[16];
  }

  lemma FieldsWrite(t: Text, m: Moment)
    requires Shaped(t) && InRange(t) && Valid(m)
    requires Value(t[..4]) == m.year && Value(t[5..7]) == m.month && Value(t[8..10]) == m.day
    requires Value(t[11..13]) == m.hour && Value(t[14..16]) == m.minute && Value(t[17..19]) == m.second
    ensures DateTimeText(m) == t[..19]
  {
    FourWrites(t[..4]);
    TwoWrites(t[5..7]);
    TwoWrites(t[8..10]);
    TwoWrites(t[11..13]);
    TwoWrites(t[14..16]);
    TwoWrites(t[17..19]);
    hide Value, Two, Four;
    assert t[..19] == t[..4] + [t[4]] + t[5..7] + [t[7]] + t[8..10] + [t[10]] + t[11..13] + [t[13]] + t[14..16] + [t[16]] + t[17..19];
  }

  lemma FractionReads(t: Text, zeros: nat, rest: Text)
    requires zeros <= 9 && |t| >= 20 && t[19..] == FractionText(zeros) + rest && rest != [] && rest[0] in {43, 45, 90}
    ensures Fraction(t) == Some(zeros) && t[if zeros == 0 then 19 else 20 + zeros..] == rest
  {
    var u := t[19..];
    if zeros == 0 {
      assert u == rest && t[19] == u[0];
    } else {
      assert t[19] == u[0] && t[20 + zeros] == u[1 + zeros] == rest[0];
      forall k | 20 <= k < 20 + zeros ensures t[k] == 48 { assert t[k] == u[k - 19]; }
      ZerosAreCounted(t, 20, zeros);
      assert u[1 + zeros..] == rest && t[20 + zeros..] == u[1 + zeros..];
    }
  }

  lemma FractionWrites(t: Text, zeros: nat)
    requires |t| >= 20 && Fraction(t) == Some(zeros)
    ensures zeros <= 9 && t[19..] == FractionText(zeros) + t[if zeros == 0 then 19 else 20 + zeros..]
  {
    if zeros > 0 { assert t[19..] == [t[19]] + t[20..20 + zeros] + t[20 + zeros..]; }
  }

  /** Every valid text is read back as the moment it was written from. */
  lemma RenderedIsRead(m: Moment)
    requires Valid(m)
    ensures Parse(Render(m)) == Some(m)
  {
    hide Value, Shaped, InRange, Fraction, ReadZone, ZoneText, FractionText, DateTimeText;
    var t := Render(m);
    ZoneReads(m.zone);
    assert t[..19] == DateTimeText(m) && t[19..] == FractionText(m.zeros) + ZoneText(m.zone);
    FractionReads(t, m.zeros, ZoneText(m.zone));
    FieldsRead(m, t);
    hide Valid, Render;
  }

  lemma ReadIsValid(t: Text)
    requires Parse(t).Some?
    ensures Valid(Parse(t).value)
  {
    var m := Parse(t).value;
    FractionWrites(t, m.zeros);
    ZoneWrites(t[if m.zeros == 0 then 19 else 20 + m.zeros..]);
    FourWrites(t[..4]);
    hide Fraction, ReadZone, Value, Four, FractionText, ZoneText;
  }

  /** And whatever is read is the rendering of a valid moment: no other spelling is accepted. */
  lemma ReadIsRendered(t: Text)
    requires Parse(t).Some?
    ensures Valid(Parse(t).value) && Render(Parse(t).value) == t
  {
    var m := Parse(t).value;
    FractionWrites(t, m.zeros);
    var suffix := if m.zeros == 0 then 19 else 20 + m.zeros;
    ZoneWrites(t[suffix..]);
    ReadIsValid(t);
    FieldsWrite(t, m);
    hide Fraction, ReadZone, Value, Shaped, InRange, ZoneText, FractionText, DateTimeText, Valid;
    assert t == t[..19] + t[19..];
  }

  /** The reader gives the seconds of the one moment the text renders, and refuses every other text. */
  method Timestamp(t: Text) returns (r: Option<int>)
    ensures r.Some? <==> exists m :: Valid(m) && Render(m) == t
    ensures forall m :: Valid(m) && Render(m) == t ==> r == Some(Seconds(m))
  {
    r := Read(t);
    if Parse(t).Some? { ReadIsRendered(t); }
    forall m | Valid(m) && Render(m) == t ensures Parse(t) == Some(m) { RenderedIsRead(m); }
    hide Parse, Render;
  }

  method ReadRest(rest: Text) returns (r: Option<Zone>)
    ensures r == ReadZone(rest)
  {
    if rest == [90] { return Some(Utc); }
    if |rest| == 6 && (rest[0] == 43 || rest[0] == 45) && rest[3] == 58 {
      var hour := Number(rest[1..3]);
      var minute := Number(rest[4..6]);
      if hour.None? || minute.None? || hour.value > 23 || minute.value > 59 { return None; }
      TwoWrites(rest[1..3]);
      TwoWrites(rest[4..6]);
      return Some(Offset(rest[0] == 45, hour.value, minute.value));
    }
    return None;
  }

  method Read(t: Text) returns (r: Option<int>)
    ensures r == match Parse(t) case None => None case Some(m) => if ValidDay(m) then Some(Seconds(m)) else None
    ensures Parse(t).Some? ==> ValidDay(Parse(t).value)
  {
    hide Value, ReadZone;
    if |t| < 20 || t[4] != 45 || t[7] != 45 || t[10] != 84 || t[13] != 58 || t[16] != 58 { return None; }
    var year := Number(t[..4]);
    var month := Number(t[5..7]);
    var day := Number(t[8..10]);
    var hour := Number(t[11..13]);
    var minute := Number(t[14..16]);
    var second := Number(t[17..19]);
    if year.None? || month.None? || day.None? || hour.None? || minute.None? || second.None? { return None; }
    FourWrites(t[..4]);
    TwoWrites(t[11..13]);
    TwoWrites(t[14..16]);
    TwoWrites(t[17..19]);
    if month.value < 1 || month.value > 12 || day.value < 1 || day.value > 31 || hour.value > 23 || minute.value > 59
        || second.value > 59 {
      return None;
    }
    if day.value > Calendar.MonthDays(year.value, month.value) { return None; }
    assert Shaped(t) && InRange(t);
    hide Shaped, InRange, Calendar.MonthDays;
    var fraction := ReadFraction(t);
    if fraction.None? {
      assert Parse(t).None? by { if Fraction(t).Some? { assert ReadZone(t[20 + Fraction(t).value..]).None?; } }
      return None;
    }
    var suffix := if fraction.value == 0 then 19 else 20 + fraction.value;
    var zone := ReadRest(t[suffix..]);
    if zone.None? { return None; }
    var days := Calendar.DaysFromCivil(year.value, month.value, day.value);
    var offset := 0;
    if zone.value.Offset? {
      offset := (zone.value.hour * 60 + zone.value.minute) * 60;
      if zone.value.negative { offset := -offset; }
    }
    return Some(days * 86400 + hour.value * 3600 + minute.value * 60 + second.value - offset);
  }

  /** The number of zeros in the fraction; None also when another digit follows, which no zone can start with. */
  method ReadFraction(t: Text) returns (r: Option<nat>)
    requires |t| >= 20
    ensures r.Some? ==> r == Fraction(t)
    ensures r.None? ==> Fraction(t).None? || (Fraction(t).value > 0 && ReadZone(t[20 + Fraction(t).value..]).None?)
  {
    if t[19] != 46 { return Some(0); }
    var suffix := 20;
    while suffix < |t| && t[suffix] >= 48 && t[suffix] <= 57
      invariant 20 <= suffix <= |t| && forall k :: 20 <= k < suffix ==> t[k] == 48
    {
      if t[suffix] != 48 {
        ZerosAreCounted(t, 20, suffix - 20);
        NoDigitStartsZone(t[suffix..]);
        return None;
      }
      suffix := suffix + 1;
    }
    ZerosAreCounted(t, 20, suffix - 20);
    if suffix == 20 || suffix - 20 > 9 { return None; }
    return Some(suffix - 20);
  }

  lemma NoDigitStartsZone(rest: Text)
    requires rest != [] && Digit(rest[0])
    ensures ReadZone(rest).None?
  {
    hide Value;
  }
}
