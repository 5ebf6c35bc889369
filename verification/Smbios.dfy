/** The system UUID of a raw SMBIOS table (DMTF DSP0134 section 7.2.1): a declarative reading of the table and the
    two walkers, sdk/go/device_smbios.go and sdk/cpp/src/platform.cpp, that implement it. */
module Smbios {
  import opened Common

  const HEADER_SIZE := 8
  const MAX_BYTES := 1048576

  function LittleEndian32(b: seq<byte>, k: nat): nat
    requires k + 4 <= |b|
  {
    var b0: nat, b1: nat, b2: nat, b3: nat := b[k], b[k + 1], b[k + 2], b[k + 3];
    b0 + b1 * 0x100 + b2 * 0x10000 + b3 * 0x1000000
  }

  /** RawSMBIOSData of version 2.6 or later whose declared length is the length of its table. */
  predicate GoodHeader(data: seq<byte>) {
    && HEADER_SIZE <= |data| <= MAX_BYTES
    && (data[1] > 2 || (data[1] == 2 && data[2] >= 6))
    && LittleEndian32(data, 4) == |data| - HEADER_SIZE
  }

  // ----- The table as a list of structures -----

  predicate DoubleZero(b: seq<byte>, k: nat) {
    k + 1 < |b| && b[k] == 0 && b[k + 1] == 0
  }

  /** A formatted area that carries its own length, and strings that run to their first double zero. */
  datatype Structure = Structure(formatted: seq<byte>, strings: seq<byte>) {
    ghost predicate Valid() {
      && 4 <= |formatted| && formatted[1] == |formatted|
      && 2 <= |strings| && DoubleZero(strings, |strings| - 2)
      && forall k :: 0 <= k < |strings| - 2 ==> !DoubleZero(strings, k)
    }
    ghost function Kind(): byte
      requires Valid()
    {
      formatted[0]
    }
    ghost function Bytes(): seq<byte> { formatted + strings }
  }

  ghost predicate AllValid(ss: seq<Structure>) {
    forall i :: 0 <= i < |ss| ==> ss[i].Valid()
  }

  ghost function Table(ss: seq<Structure>): seq<byte> {
    if ss == [] then [] else ss[0].Bytes() + Table(ss[1..])
  }

  /** The list ends with its first end-of-table structure. */
  ghost predicate Ends(ss: seq<Structure>)
    requires AllValid(ss)
  {
    && ss != [] && ss[|ss| - 1].Kind() == 127
    && forall i :: 0 <= i < |ss| - 1 ==> ss[i].Kind() != 127
  }

  /** The structures that describe the system, in order. */
  ghost function Systems(ss: seq<Structure>): seq<Structure>
    requires AllValid(ss)
  {
    if ss == [] then [] else (if ss[0].Kind() == 1 then [ss[0]] else []) + Systems(ss[1..])
  }

  /** The fields of a UUID that SMBIOS 2.6 stores little-endian, put in network order. */
  function Reordered(raw: seq<byte>): seq<byte>
    requires |raw| == 16
  {
    [raw[3], raw[2], raw[1], raw[0], raw[5], raw[4], raw[7], raw[6]] + raw[8..]
  }

  ghost predicate Usable(raw: seq<byte>) {
    (exists k :: 0 <= k < |raw| && raw[k] != 0) && (exists k :: 0 <= k < |raw| && raw[k] != 255)
  }

  ghost predicate SystemUuid(s: Structure, uuid: seq<byte>) {
    && 25 <= |s.formatted| && Usable(s.formatted[8..24])
    && uuid == Reordered(s.formatted[8..24])
  }

  /** Exactly one structure describes the system, and it carries this UUID. */
  ghost predicate OneSystem(ss: seq<Structure>, uuid: seq<byte>)
    requires AllValid(ss)
  {
    |Systems(ss)| == 1 && SystemUuid(Systems(ss)[0], uuid)
  }

  /** What the walkers must answer: the UUID of the one system structure before the first end of table. */
  ghost predicate Identifies(data: seq<byte>, uuid: seq<byte>) {
    GoodHeader(data) && Reads(data[HEADER_SIZE..], None, uuid)
  }

  ghost predicate Reads(table: seq<byte>, known: Option<seq<byte>>, uuid: seq<byte>) {
    exists ss, rest :: ReadsAs(table, known, uuid, ss, rest)
  }

  ghost predicate ReadsAs(table: seq<byte>, known: Option<seq<byte>>, uuid: seq<byte>, ss: seq<Structure>,
      rest: seq<byte>) {
    && AllValid(ss) && Ends(ss) && table == Table(ss) + rest
    && (if known.Some? then known.value == uuid && Systems(ss) == [] else OneSystem(ss, uuid))
  }

  /** A result that is right for the Go walker: plain lower-case hexadecimal. */
  ghost predicate GoAnswer(data: seq<byte>, result: Option<string>) {
    && (result.Some? ==> exists uuid :: Identifies(data, uuid) && result.value == Hex(uuid))
    && (result.None? ==> forall uuid :: !Identifies(data, uuid))
  }

  /** A result that is right for the C++ walker: the dashed form. */
  ghost predicate CppAnswer(data: seq<byte>, result: Option<string>) {
    && (result.Some? ==> exists uuid :: Identifies(data, uuid) && |uuid| == 16 && result.value == Dashed(Hex(uuid)))
    && (result.None? ==> forall uuid :: !Identifies(data, uuid))
  }

  // ----- Reading the list from its front -----

  /** The first double zero at or after a position. */
  ghost function FindDouble(b: seq<byte>, from: nat): Option<nat>
    decreases |b| - from
  {
    if from + 1 >= |b| then None else if DoubleZero(b, from) then Some(from) else FindDouble(b, from + 1)
  }

  lemma {:induction false} FindDoubleIsFirst(b: seq<byte>, from: nat, at: nat)
    requires from <= at
    requires forall k :: from <= k < at ==> !DoubleZero(b, k)
    ensures DoubleZero(b, at) ==> FindDouble(b, from) == Some(at)
    ensures at + 1 >= |b| ==> FindDouble(b, from) == None
    decreases at - from
  {
    if from < at {
      if from + 1 < |b| { FindDoubleIsFirst(b, from + 1, at); }
    }
  }

  lemma {:induction false} FindDoubleFound(b: seq<byte>, from: nat)
    requires FindDouble(b, from).Some?
    ensures var at := FindDouble(b, from).value;
            from <= at && DoubleZero(b, at) && forall k :: from <= k < at ==> !DoubleZero(b, k)
    decreases |b| - from
  {
    if !DoubleZero(b, from) { FindDoubleFound(b, from + 1); }
  }

  ghost function First(table: seq<byte>): (s: Option<Structure>) {
    if |table| < 4 || table[1] < 4 || table[1] > |table| then None
    else
      match FindDouble(table, table[1])
      case None => None
      case Some(at) => if at + 2 <= |table| && table[1] <= at
          then Some(Structure(table[..table[1]], table[table[1]..at + 2])) else None
  }

  lemma FirstIsValid(table: seq<byte>)
    requires First(table).Some?
    ensures var s := First(table).value; s.Valid() && s.Bytes() <= table && |s.Bytes()| > 0
  {
    var n: nat := table[1];
    FindDoubleFound(table, n);
    var s := First(table).value;
    assert forall k :: 0 <= k < |s.strings| ==> s.strings[k] == table[n + k];
    forall k | 0 <= k < |s.strings| - 2 ensures !DoubleZero(s.strings, k) { assert !DoubleZero(table, n + k); }
  }

  /** A prefix before and a rest after keep every double zero where it was, shifted. */
  lemma ShiftedDouble(before: seq<byte>, strings: seq<byte>, rest: seq<byte>, k: nat)
    requires k + 1 < |strings|
    ensures DoubleZero(before + strings + rest, |before| + k) == DoubleZero(strings, k)
  {
    var table := before + strings + rest;
    assert table[|before| + k] == strings[k] && table[|before| + (k + 1)] == strings[k + 1];
  }

  /** The strings of a leading structure end at the first double zero after its formatted area. */
  lemma StringsEnd(s: Structure, rest: seq<byte>)
    requires s.Valid()
    ensures FindDouble(s.Bytes() + rest, |s.formatted|) == Some(|s.formatted| + |s.strings| - 2)
  {
    var table, n := s.Bytes() + rest, |s.formatted|;
    var at := n + |s.strings| - 2;
    forall k | n <= k <= at ensures DoubleZero(table, k) == DoubleZero(s.strings,
        k - n) { ShiftedDouble(s.formatted, s.strings, rest, k - n); }
    hide FindDouble, DoubleZero;
    forall k | n <= k < at ensures !DoubleZero(table, k) { assert !DoubleZero(s.strings, k - n); }
    FindDoubleIsFirst(table, n, at);
  }

  /** A table that starts with a valid structure is read as starting with exactly that structure. */
  lemma FirstIsUnique(s: Structure, rest: seq<byte>)
    requires s.Valid()
    ensures First(s.Bytes() + rest) == Some(s)
  {
    hide FindDouble;
    var table, n := s.Bytes() + rest, |s.formatted|;
    StringsEnd(s, rest);
    assert |table| == n + |s.strings| + |rest| && table[1] == s.formatted[1] == n;
    assert table[..n] == s.formatted;
    assert table[n..n + |s.strings|] == s.strings;
  }

  /** What one structure does to the identity found so far; the outer None rejects the table. */
  ghost function Visit(s: Structure, known: Option<seq<byte>>): Option<Option<seq<byte>>>
    requires s.Valid()
  {
    if s.Kind() != 1 then Some(known)
    else if known.Some? || |s.formatted| < 25 || !Usable(s.formatted[8..24]) then None
    else Some(Some(Reordered(s.formatted[8..24])))
  }

  ghost function Walk(table: seq<byte>, known: Option<seq<byte>>): Option<seq<byte>>
    decreases |table|
  {
    if First(table).None? then None
    else
      FirstIsValid(table);
      var s := First(table).value;
      if s.Kind() == 127 then known
      else if Visit(s, known).None? then None
      else Walk(table[|s.Bytes()|..], Visit(s, known).value)
  }

  lemma {:induction false} WalkSound(table: seq<byte>, known: Option<seq<byte>>, uuid: seq<byte>)
    requires Walk(table, known) == Some(uuid)
    ensures Reads(table, known, uuid)
    decreases |table|
  {
    hide Usable, Reordered, First, SystemUuid, OneSystem, Systems, Structure.Valid, Structure.Bytes, Ends;
    FirstIsValid(table);
    var s := First(table).value;
    var next := table[|s.Bytes()|..];
    assert table == s.Bytes() + next;
    if s.Kind() == 127 {
      LastStructure(s);
      assert ReadsAs(table, known, uuid, [s], next);
    } else {
      var later := Visit(s, known).value;
      WalkSound(next, later, uuid);
      var ss, rest :| ReadsAs(next, later, uuid, ss, rest);
      Prepend(s, ss, known, uuid);
      assert s.Bytes() + (Table(ss) + rest) == (s.Bytes() + Table(ss)) + rest;
      assert ReadsAs(table, known, uuid, [s] + ss, rest);
    }
  }

  lemma LastStructure(s: Structure)
    requires s.Valid() && s.Kind() == 127
    ensures AllValid([s]) && Ends([s]) && Table([s]) == s.Bytes() && Systems([s]) == []
  {
    assert Table([s]) == s.Bytes() + Table([s][1..]);
  }

  lemma Prepend(s: Structure, ss: seq<Structure>, known: Option<seq<byte>>, uuid: seq<byte>)
    requires s.Valid() && AllValid(ss) && s.Kind() != 127 && Ends(ss) && Visit(s, known).Some?
    requires var later := Visit(s, known).value;
             if later.Some? then later.value == uuid && Systems(ss) == [] else OneSystem(ss, uuid)
    ensures var all := [s] + ss;
            && AllValid(all) && Ends(all) && Table(all) == s.Bytes() + Table(ss)
            && (if known.Some? then known.value == uuid && Systems(all) == [] else OneSystem(all, uuid))
  {
    hide Usable, Reordered;
    var all := [s] + ss;
    assert all[1..] == ss;
    assert Systems(all) == (if s.Kind() == 1 then [s] else []) + Systems(ss);
  }

  lemma {:induction false} WalkComplete(table: seq<byte>, known: Option<seq<byte>>, uuid: seq<byte>, ss: seq<Structure>,
      rest: seq<byte>)
    requires ReadsAs(table, known, uuid, ss, rest)
    ensures Walk(table, known) == Some(uuid)
    decreases |ss|
  {
    hide Usable, Reordered, First, Structure.Bytes, FindDouble, SystemUuid;
    var s, tail := ss[0], ss[1..];
    assert table == s.Bytes() + (Table(tail) + rest);
    FirstIsUnique(s, Table(tail) + rest);
    if s.Kind() == 127 {
      LastStructure(s);
      assert ss == [s];
    } else {
      var later := VisitKeeps(ss, known, uuid);
      WalkComplete(Table(tail) + rest, later, uuid, tail, rest);
      WalkOn(s, Table(tail) + rest, known, later);
    }
  }

  lemma WalkOn(s: Structure, next: seq<byte>, known: Option<seq<byte>>, later: Option<seq<byte>>)
    requires s.Valid() && s.Kind() != 127 && Visit(s, known) == Some(later)
    ensures Walk(s.Bytes() + next, known) == Walk(next, later)
  {
    hide First, FindDouble, Usable, Reordered;
    FirstIsUnique(s, next);
    assert (s.Bytes() + next)[|s.Bytes()|..] == next;
  }

  lemma VisitKeeps(ss: seq<Structure>, known: Option<seq<byte>>, uuid: seq<byte>) returns (later: Option<seq<byte>>)
    requires AllValid(ss) && Ends(ss) && ss[0].Kind() != 127
    requires if known.Some? then known.value == uuid && Systems(ss) == [] else OneSystem(ss, uuid)
    ensures Visit(ss[0], known) == Some(later) && AllValid(ss[1..]) && Ends(ss[1..])
    ensures if later.Some? then later.value == uuid && Systems(ss[1..]) == [] else OneSystem(ss[1..], uuid)
  {
    hide Usable, Reordered;
    later := if ss[0].Kind() == 1 then Some(uuid) else known;
  }

  /** The walk answers exactly what the declarative reading says. */
  lemma WalkIsReading(table: seq<byte>, uuid: seq<byte>)
    ensures Walk(table, None) == Some(uuid) <==> Reads(table, None, uuid)
  {
    if Walk(table, None) == Some(uuid) { WalkSound(table, None, uuid); }
    if Reads(table, None, uuid) {
      var ss, rest :| ReadsAs(table, None, uuid, ss, rest);
      WalkComplete(table, None, uuid, ss, rest);
    }
  }

  // ----- Identities as text -----

  function HexDigit(n: nat): char
    requires n < 16
  {
    "0123456789abcdef"[n]
  }

  function Hex(b: seq<byte>): (s: string)
    ensures |s| == 2 * |b|
  {
    if b == [] then [] else [HexDigit(b[0] / 16), HexDigit(b[0] % 16)] + Hex(b[1..])
  }

  lemma {:induction false} HexIsInjective(a: seq<byte>, b: seq<byte>)
    requires Hex(a) == Hex(b)
    ensures a == b
  {
    if a != [] {
      var s, t := Hex(a), Hex(b);
      assert s[0] == t[0] && s[1] == t[1] && s[2..] == t[2..];
      DigitsDiffer(a[0] / 16, b[0] / 16);
      DigitsDiffer(a[0] % 16, b[0] % 16);
      assert s[2..] == Hex(a[1..]) && t[2..] == Hex(b[1..]);
      HexIsInjective(a[1..], b[1..]);
    }
  }

  lemma DigitsDiffer(m: nat, n: nat)
    requires m < 16 && n < 16 && HexDigit(m) == HexDigit(n)
    ensures m == n
  {}

  /** The string comparisons of the Go walker reject exactly the unusable UUIDs. */
  lemma UnusableText(raw: seq<byte>)
    requires |raw| == 16
    ensures Usable(raw) <==>
      Hex(Reordered(raw)) != "00000000000000000000000000000000"
          && Hex(Reordered(raw)) != "ffffffffffffffffffffffffffffffff"
  {
    var zero, ones := seq(16, i => 0), seq(16, i => 255);
    HexOfSame(0, 16);
    HexOfSame(255, 16);
    RepeatedText();
    if Hex(Reordered(raw)) == Hex(zero) { HexIsInjective(Reordered(raw), zero); }
    if Hex(Reordered(raw)) == Hex(ones) { HexIsInjective(Reordered(raw), ones); }
    assert forall k :: 0 <= k < 16 ==>
        Reordered(raw)[k] == raw[if k < 4 then 3 - k else if k < 6 then 9 - k else if k < 8 then 13 - k else k];
    assert forall k :: 0 <= k < 16 ==>
        raw[k] == Reordered(raw)[if k < 4 then 3 - k else if k < 6 then 9 - k else if k < 8 then 13 - k else k];
    if !Usable(raw) { assert Reordered(raw) == zero || Reordered(raw) == ones; }
  }

  ghost function Repeat(c: char, n: nat): (s: string)
    ensures |s| == n && forall k :: 0 <= k < n ==> s[k] == c
  {
    seq(n, i => c)
  }

  lemma RepeatedText()
    ensures Repeat('0', 32) == "00000000000000000000000000000000"
    ensures Repeat('f', 32) == "ffffffffffffffffffffffffffffffff"
  {}

  lemma {:induction false} HexOfSame(b: byte, n: nat)
    requires b == 0 || b == 255
    ensures Hex(seq(n, i => b)) == Repeat(if b == 0 then '0' else 'f', 2 * n)
  {
    if n > 0 {
      HexOfSame(b, n - 1);
      assert seq(n, i => b)[1..] == seq(n - 1, i => b);
    }
  }

  function Dashed(hex: string): string
    requires |hex| == 32
  {
    hex[..8] + "-" + hex[8..12] + "-" + hex[12..16] + "-" + hex[16..20] + "-" + hex[20..]
  }

  /** The text with its dashes removed. */
  ghost function WithoutDashes(s: string): string {
    if s == "" then "" else (if s[0] == '-' then "" else [s[0]]) + WithoutDashes(s[1..])
  }

  lemma {:induction false} WithoutDashesAppend(a: string, b: string)
    ensures WithoutDashes(a + b) == WithoutDashes(a) + WithoutDashes(b)
  {
    if a == "" {
      assert a + b == b;
    } else {
      assert (a + b)[1..] == a[1..] + b;
      WithoutDashesAppend(a[1..], b);
    }
  }

  lemma {:induction false} NothingToRemove(s: string)
    requires '-' !in s
    ensures WithoutDashes(s) == s
  {
    if s != "" { NothingToRemove(s[1..]); }
  }

  lemma {:induction false} HexHasNoDash(b: seq<byte>)
    ensures '-' !in Hex(b)
  {
    if b != [] { HexHasNoDash(b[1..]); }
  }

  lemma DashesOnly(hex: string)
    requires |hex| == 32 && '-' !in hex
    ensures WithoutDashes(Dashed(hex)) == hex
  {
    hide WithoutDashes;
    var p, q, r := hex[..8], hex[..12], hex[..16];
    OneMorePiece(p, hex[8..12]);
    OneMorePiece(p + "-" + hex[8..12], hex[12..16]);
    OneMorePiece(p + "-" + hex[8..12] + "-" + hex[12..16], hex[16..20]);
    OneMorePiece(p + "-" + hex[8..12] + "-" + hex[12..16] + "-" + hex[16..20], hex[20..]);
    NothingToRemove(p);
    assert p + hex[8..12] + hex[12..16] + hex[16..20] + hex[20..] == hex;
  }

  lemma OneMorePiece(before: string, piece: string)
    requires '-' !in piece
    ensures WithoutDashes(before + "-" + piece) == WithoutDashes(before) + piece
  {
    var dash := "-";
    assert WithoutDashes(dash) == WithoutDashes(dash[1..]);
    WithoutDashesAppend(before + dash, piece);
    WithoutDashesAppend(before, dash);
    NothingToRemove(piece);
  }

  // ----- The walker of sdk/go/device_smbios.go -----

  /** One step of the walk, in terms of positions of the table. */
  lemma WalkStep(table: seq<byte>, known: Option<seq<byte>>)
    requires 4 <= |table| && 4 <= table[1] <= |table|
    ensures FindDouble(table, table[1]).None? ==> Walk(table, known) == None
    ensures FindDouble(table, table[1]).Some? ==>
      var at := FindDouble(table, table[1]).value;
      && table[1] <= at && at + 2 <= |table|
      && (table[0] == 127 ==> Walk(table, known) == known)
      && (table[0] == 1 && (known.Some? || table[1] < 25 || !Usable(table[8..24])) ==> Walk(table, known) == None)
      && (table[0] == 1 && known.None? && table[1] >= 25 && Usable(table[8..24]) ==>
            Walk(table, known) == Walk(table[at + 2..], Some(Reordered(table[8..24]))))
      && (table[0] != 1 && table[0] != 127 ==> Walk(table, known) == Walk(table[at + 2..], known))
  {
    hide Usable, Reordered, First, FindDouble;
    if FindDouble(table, table[1]).Some? {
      FirstAt(table);
      FirstIsValid(table);
      if table[1] >= 25 { assert table[..table[1]][8..24] == table[8..24]; }
    } else {
      NoFirst(table);
    }
  }

  lemma FirstAt(table: seq<byte>)
    requires 4 <= |table| && 4 <= table[1] <= |table| && FindDouble(table, table[1]).Some?
    ensures var at := FindDouble(table, table[1]).value;
            && table[1] <= at && at + 2 <= |table|
            && First(table) == Some(Structure(table[..table[1]], table[table[1]..at + 2]))
            && First(table).value.Bytes() == table[..at + 2]
  {
    FindDoubleFound(table, table[1]);
  }

  lemma NoFirst(table: seq<byte>)
    requires 4 <= |table| && FindDouble(table, table[1]).None?
    ensures First(table).None?
  {}

  lemma WalkRefuses(table: seq<byte>, known: Option<seq<byte>>)
    requires |table| < 4 || table[1] < 4 || table[1] > |table|
    ensures Walk(table, known) == None
  {}

  method SmbiosSystemUuid(data: seq<byte>) returns (result: Option<string>)
    ensures GoAnswer(data, result)
  {
    hide Walk, Usable, GoodHeader, Identifies, Hex;
    ghost var answer := Answer(data);
    var good := HeaderIsGood(data);
    if !good { return None; }
    var identity := "";
    ghost var known: Option<seq<byte>> := None;
    var offset := HEADER_SIZE;
    while offset < |data|
      invariant HEADER_SIZE <= offset <= |data|
      invariant identity == (if known.None? then "" else Hex(known.value))
      invariant known.Some? ==> |known.value| == 16
      invariant Walk(data[offset..], known) == answer
    {
      ghost var table := data[offset..];
      if |data| - offset < 4 {
        WalkRefuses(table, known);
        return None;
      }
      var recordType, formattedLength: nat := data[offset], data[offset + 1];
      if formattedLength < 4 || formattedLength > |data| - offset {
        WalkRefuses(table, known);
        return None;
      }
      WalkStep(table, known);
      var end := offset + formattedLength;
      while end + 1 < |data| && (data[end] != 0 || data[end + 1] != 0)
        invariant offset + formattedLength <= end <= |data|
        invariant FindDouble(table, formattedLength) == FindDouble(table, end - offset)
      {
        end := end + 1;
      }
      if end + 1 >= |data| { return None; }
      assert DoubleZero(table, end - offset);
      if recordType == 1 {
        if identity != "" || formattedLength < 25 { return None; }
        var raw := data[offset + 8..offset + 24];
        assert raw == table[8..24];
        UnusableText(raw);
        identity := Hex(Reordered(raw));
        known := Some(Reordered(raw));
        if identity == "00000000000000000000000000000000" || identity == "ffffffffffffffffffffffffffffffff" {
          return None;
        }
      } else if recordType == 127 {
        if identity == "" { return None; }
        return Some(identity);
      }
      assert table[end + 2 - offset..] == data[end + 2..];
      offset := end + 2;
    }
    WalkRefuses(data[offset..], known);
    return None;
  }

  method HeaderIsGood(data: seq<byte>) returns (good: bool)
    ensures good == GoodHeader(data)
    ensures good ==> HEADER_SIZE <= |data|
  {
    if |data| < HEADER_SIZE || |data| > MAX_BYTES { return false; }
    if data[1] < 2 || (data[1] == 2 && data[2] < 6) { return false; }
    return LittleEndian32(data, 4) == |data| - HEADER_SIZE;
  }

  /** The one answer a walker may give. */
  lemma Answer(data: seq<byte>) returns (answer: Option<seq<byte>>)
    ensures GoodHeader(data) ==> answer == Walk(data[HEADER_SIZE..], None)
    ensures !GoodHeader(data) ==> answer == None
    ensures forall uuid :: Identifies(data, uuid) <==> answer == Some(uuid)
  {
    answer := if GoodHeader(data) then Walk(data[HEADER_SIZE..], None) else None;
    if GoodHeader(data) {
      forall uuid ensures Walk(data[HEADER_SIZE..], None) == Some(uuid) <==> Reads(data[HEADER_SIZE..], None, uuid) {
        WalkIsReading(data[HEADER_SIZE..], uuid);
      }
    }
  }

  // ----- The walker of sdk/cpp/src/platform.cpp -----

  /** std::string_view::find for two zero bytes. */
  method FindTerminator(b: seq<byte>, from: nat) returns (at: Option<nat>)
    requires from <= |b|
    ensures at == FindDouble(b, from)
  {
    var k := from;
    while k + 1 < |b|
      invariant from <= k <= |b|
      invariant FindDouble(b, from) == FindDouble(b, k)
    {
      if b[k] == 0 && b[k + 1] == 0 { return Some(k); }
      k := k + 1;
    }
    return None;
  }

  method ParseSmbiosUuid(raw: seq<byte>) returns (result: Option<string>)
    ensures CppAnswer(raw, result)
  {
    hide Walk, GoodHeader, Identifies, FindDouble, Dashed;
    ghost var answer := Answer(raw);
    var good := HeaderIsGood(raw);
    if !good { return None; }
    var payload := raw[8..];
    var cursor := 0;
    var identity: Option<string> := None;
    ghost var known: Option<seq<byte>> := None;
    while cursor < |payload|
      invariant 0 <= cursor <= |payload|
      invariant known.Some? ==> |known.value| == 16
      invariant identity == (if known.None? then None else Some(Dashed(Hex(known.value))))
      invariant Walk(payload[cursor..], known) == answer
    {
      ghost var table := payload[cursor..];
      if |payload| - cursor < 4 {
        WalkRefuses(table, known);
        return None;
      }
      var kind, length: nat := payload[cursor], payload[cursor + 1];
      if length < 4 || length > |payload| - cursor {
        WalkRefuses(table, known);
        return None;
      }
      WalkStep(table, known);
      var formattedEnd := cursor + length;
      var terminator := FindTerminator(payload, formattedEnd);
      FindShifted(payload, cursor, length);
      if terminator.None? { return None; }
      cursor := terminator.value + 2;
      assert table[|table| - (|payload| - cursor)..] == payload[cursor..];
      if kind == 1 {
        if identity.Some? || length < 25 { return None; }
        var bytes := payload[formattedEnd - length + 8..formattedEnd - length + 24];
        assert bytes == table[8..24];
        var allZero := forall k :: 0 <= k < |bytes| ==> bytes[k] == 0;
        var allOnes := forall k :: 0 <= k < |bytes| ==> bytes[k] == 255;
        if allZero || allOnes { return None; }
        identity := Some(Dashed(Hex(Reordered(bytes))));
        known := Some(Reordered(bytes));
      } else if kind == 127 {
        return identity;
      }
    }
    WalkRefuses(payload[cursor..], known);
    return None;
  }

  /** Searching from a position of the payload is searching the table that starts there. */
  lemma {:induction false} FindShifted(b: seq<byte>, cursor: nat, from: nat)
    requires cursor + from <= |b|
    ensures var here, there := FindDouble(b[cursor..], from), FindDouble(b, cursor + from);
            here.Some? == there.Some? && (here.Some? ==> there.value == here.value + cursor)
    decreases |b| - from
  {
    if cursor + from + 1 < |b| && !DoubleZero(b, cursor + from) { FindShifted(b, cursor, from + 1); }
  }

  /** Both walkers accept the same tables and, dashes aside, name the same machine. */
  lemma WalkersAgree(data: seq<byte>, go: Option<string>, cpp: Option<string>)
    requires GoAnswer(data, go) && CppAnswer(data, cpp)
    ensures go.Some? <==> cpp.Some?
    ensures cpp.Some? ==> go.value == WithoutDashes(cpp.value)
  {
    var answer := Answer(data);
    if cpp.Some? {
      var uuid :| Identifies(data, uuid) && |uuid| == 16 && cpp.value == Dashed(Hex(uuid));
      HexHasNoDash(uuid);
      DashesOnly(Hex(uuid));
    }
  }
}
