/** UTF-8 as RFC 3629 sections 3 and 4 define it, and the validator of sdk/cpp/src/json.cpp. */
module Utf8 {
  import opened Common

  /** A Unicode scalar value: a code point that is not a surrogate. */
  type Scalar = v: int | 0 <= v <= 0x10FFFF && !(0xD800 <= v <= 0xDFFF)

  /** The table of RFC 3629 section 3. */
  ghost function Encode(v: Scalar): seq<byte> {
    if v < 0x80 then [v]
    else if v < 0x800 then [0xC0 + v / 64, 0x80 + v % 64]
    else if v < 0x10000 then [0xE0 + v / 4096, 0x80 + v / 64 % 64, 0x80 + v % 64]
    else [0xF0 + v / 262144, 0x80 + v / 4096 % 64, 0x80 + v / 64 % 64, 0x80 + v % 64]
  }

  ghost function EncodeAll(vs: seq<Scalar>): seq<byte> {
    if vs == [] then [] else Encode(vs[0]) + EncodeAll(vs[1..])
  }

  /** Well-formed UTF-8: the concatenated encoding of some scalar values. */
  ghost predicate WellFormed(text: seq<byte>) {
    exists vs: seq<Scalar> :: EncodeAll(vs) == text
  }

  predicate Continuation(b: byte) { b / 64 == 2 }

  /** How many bytes a sequence starting with this byte has; 0 when no sequence can. */
  function LeadCount(b: byte): nat {
    if b < 0x80 then 1 else if b / 32 == 6 then 2 else if b / 16 == 14 then 3 else if b / 8 == 30 then 4 else 0
  }

  function LeadBits(b: byte): nat {
    match LeadCount(b)
    case 2 => b % 32
    case 3 => b % 16
    case 4 => b % 8
    case _ => b
  }

  /** The value collected by appending the low six bits of each continuation byte. */
  ghost function Payload(lead: nat, tail: seq<byte>): nat {
    if tail == [] then lead else Payload(lead, tail[..|tail| - 1]) * 64 + tail[|tail| - 1] % 64
  }

  lemma PayloadUnrolled(lead: nat, tail: seq<byte>)
    requires |tail| <= 3
    ensures |tail| == 0 ==> Payload(lead, tail) == lead
    ensures |tail| == 1 ==> Payload(lead, tail) == lead * 64 + tail[0] % 64
    ensures |tail| == 2 ==> Payload(lead, tail) == (lead * 64 + tail[0] % 64) * 64 + tail[1] % 64
    ensures |tail| == 3 ==> Payload(lead, tail) == ((lead * 64 + tail[0] % 64) * 64 + tail[1] % 64) * 64 + tail[2] % 64
  {
    if |tail| == 2 {
      assert tail[..1][..0] == [];
    } else if |tail| == 3 {
      assert tail[..2][..1] == tail[..1] && tail[..1][..0] == [];
    }
  }

  // The base-64 digits of a payload.

  lemma TwoDigits(a: nat, b: nat)
    requires b < 64
    ensures (a * 64 + b) / 64 == a && (a * 64 + b) % 64 == b
  {}

  lemma ThreeDigits(a: nat, b: nat, c: nat)
    requires b < 64 && c < 64
    ensures var v := (a * 64 + b) * 64 + c; v / 4096 == a && v / 64 % 64 == b && v % 64 == c
  {
    TwoDigits(a * 64 + b, c);
    assert ((a * 64 + b) * 64 + c) / 4096 == (a * 64 + b) / 64;
  }

  lemma FourDigits(a: nat, b: nat, c: nat, d: nat)
    requires b < 64 && c < 64 && d < 64
    ensures var v := ((a * 64 + b) * 64 + c) * 64 + d;
            v / 262144 == a && v / 4096 % 64 == b && v / 64 % 64 == c && v % 64 == d
  {
    ThreeDigits(a * 64 + b, c, d);
    var v := ((a * 64 + b) * 64 + c) * 64 + d;
    assert v / 262144 == (a * 64 + b) / 64;
  }

  /** The value that the sequence at the front of a text carries. */
  ghost function Value(text: seq<byte>): nat
    requires 0 < |text| && 1 <= LeadCount(text[0]) <= |text|
  {
    Payload(LeadBits(text[0]), text[1..LeadCount(text[0])])
  }

  ghost predicate Tail(text: seq<byte>, n: nat)
    requires n <= |text|
  {
    forall k :: 1 <= k < n ==> Continuation(text[k])
  }

  lemma PayloadStep(lead: nat, text: seq<byte>, j: nat)
    requires 1 <= j < |text|
    ensures Payload(lead, text[1..j + 1]) == Payload(lead, text[1..j]) * 64 + text[j] % 64
  {
    assert text[1..j + 1][..j - 1] == text[1..j];
  }

  /** The text starts with one sequence that RFC 3629 allows: complete, shortest form, no surrogate. */
  ghost predicate SequenceAt(text: seq<byte>) {
    && 0 < |text|
    && var n := LeadCount(text[0]);
    && 1 <= n <= |text|
    && Tail(text, n)
    && (n == 2 ==> LeadBits(text[0]) >= 2)
    && (n == 3 ==> Value(text) >= 0x800)
    && (n == 4 ==> Value(text) >= 0x10000)
    && Value(text) <= 0x10FFFF && !(0xD800 <= Value(text) <= 0xDFFF)
  }

  // What a lead byte and a continuation byte say about their digits.

  lemma LeadDigit(n: nat, a: nat)
    requires (n == 2 && a < 32) || (n == 3 && a < 16) || (n == 4 && a < 8)
    ensures var lead := (if n == 2 then 0xC0 else if n == 3 then 0xE0 else 0xF0) + a;
            lead < 256 && LeadCount(lead) == n && LeadBits(lead) == a
  {}

  lemma LeadByte(b: byte)
    ensures LeadCount(b) == 2 ==> b == 0xC0 + LeadBits(b) && LeadBits(b) < 32
    ensures LeadCount(b) == 3 ==> b == 0xE0 + LeadBits(b) && LeadBits(b) < 16
    ensures LeadCount(b) == 4 ==> b == 0xF0 + LeadBits(b) && LeadBits(b) < 8
  {}

  lemma TailDigit(d: nat)
    requires d < 64
    ensures Continuation(0x80 + d) && (0x80 + d) % 64 == d
  {}

  lemma TailByte(b: byte)
    requires Continuation(b)
    ensures b == 0x80 + b % 64
  {}

  /** A text that starts with the encoding of v starts with a sequence of that length carrying v. */
  lemma EncodedShape(v: Scalar, text: seq<byte>)
    requires Encode(v) <= text
    ensures SequenceAt(text) && LeadCount(text[0]) == |Encode(v)| && Value(text) == v
  {
    var n := |Encode(v)|;
    assert forall k :: 0 <= k < n ==> text[k] == Encode(v)[k];
    if n == 1 {
      PayloadUnrolled(LeadBits(text[0]), text[1..n]);
    } else {
      EncodedTail(v, text, n);
    }
  }

  lemma EncodedTail(v: Scalar, text: seq<byte>, n: nat)
    requires n == |Encode(v)| >= 2 && n <= |text|
    requires forall k :: 0 <= k < n ==> text[k] == Encode(v)[k]
    ensures SequenceAt(text) && LeadCount(text[0]) == n && Value(text) == v
  {
    if n == 2 {
      Encoded2(v, text);
    } else if n == 3 {
      Encoded3(v, text);
    } else {
      Encoded4(v, text);
    }
  }

  lemma Encoded2(v: Scalar, text: seq<byte>)
    requires 0x80 <= v < 0x800 && 2 <= |text| && text[0] == 0xC0 + v / 64 && text[1] == 0x80 + v % 64
    ensures SequenceAt(text) && LeadCount(text[0]) == 2 && Value(text) == v
  {
    LeadDigit(2, v / 64);
    TailDigit(v % 64);
    PayloadUnrolled(v / 64, text[1..2]);
  }

  lemma Encoded3(v: Scalar, text: seq<byte>)
    requires 0x800 <= v < 0x10000 && 3 <= |text| && text[0] == 0xE0 + v / 4096
    requires text[1] == 0x80 + v / 64 % 64 && text[2] == 0x80 + v % 64
    ensures SequenceAt(text) && LeadCount(text[0]) == 3 && Value(text) == v
  {
    var a, b, c := v / 4096, v / 64 % 64, v % 64;
    assert v == (a * 64 + b) * 64 + c by { assert v / 4096 == v / 64 / 64; }
    LeadDigit(3, a);
    TailDigit(b);
    TailDigit(c);
    PayloadUnrolled(a, text[1..3]);
  }

  lemma Encoded4(v: Scalar, text: seq<byte>)
    requires 0x10000 <= v && 4 <= |text| && text[0] == 0xF0 + v / 262144
    requires text[1] == 0x80 + v / 4096 % 64 && text[2] == 0x80 + v / 64 % 64 && text[3] == 0x80 + v % 64
    ensures SequenceAt(text) && LeadCount(text[0]) == 4 && Value(text) == v
  {
    var a, b, c, d := v / 262144, v / 4096 % 64, v / 64 % 64, v % 64;
    assert v == ((a * 64 + b) * 64 + c) * 64 + d by {
      assert v / 4096 == v / 64 / 64 && v / 262144 == v / 4096 / 64;
    }
    LeadDigit(4, a);
    TailDigit(b);
    TailDigit(c);
    TailDigit(d);
    PayloadUnrolled(a, text[1..4]);
  }

  /** Conversely the value of a sequence is encoded by exactly its bytes. */
  lemma DecodedShape(text: seq<byte>)
    requires SequenceAt(text)
    ensures Encode(Value(text)) == text[..LeadCount(text[0])]
  {
    var n := LeadCount(text[0]);
    PayloadUnrolled(LeadBits(text[0]), text[1..n]);
    LeadByte(text[0]);
    if n == 2 {
      Decoded2(text);
    } else if n == 3 {
      Decoded3(text);
    } else if n == 4 {
      Decoded4(text);
    }
  }

  lemma Decoded2(text: seq<byte>)
    requires SequenceAt(text) && LeadCount(text[0]) == 2
    ensures Encode(Value(text)) == text[..2]
  {
    PayloadUnrolled(LeadBits(text[0]), text[1..2]);
    LeadByte(text[0]);
    TailByte(text[1]);
    TwoDigits(LeadBits(text[0]), text[1] % 64);
  }

  lemma Decoded3(text: seq<byte>)
    requires SequenceAt(text) && LeadCount(text[0]) == 3
    ensures Encode(Value(text)) == text[..3]
  {
    PayloadUnrolled(LeadBits(text[0]), text[1..3]);
    LeadByte(text[0]);
    TailByte(text[1]);
    TailByte(text[2]);
    ThreeDigits(LeadBits(text[0]), text[1] % 64, text[2] % 64);
  }

  lemma Decoded4(text: seq<byte>)
    requires SequenceAt(text) && LeadCount(text[0]) == 4
    ensures Encode(Value(text)) == text[..4]
  {
    PayloadUnrolled(LeadBits(text[0]), text[1..4]);
    LeadByte(text[0]);
    TailByte(text[1]);
    TailByte(text[2]);
    TailByte(text[3]);
    FourDigits(LeadBits(text[0]), text[1] % 64, text[2] % 64, text[3] % 64);
  }

  /** No encoding is a proper prefix of another. */
  lemma PrefixFree(a: Scalar, b: Scalar, text: seq<byte>)
    requires Encode(a) <= text && Encode(b) <= text
    ensures a == b
  {
    EncodedShape(a, text);
    EncodedShape(b, text);
  }

  /** An encoded prefix of an encoded text is a prefix of the encoded values. */
  lemma {:induction false} PrefixDetermined(done: seq<Scalar>, vs: seq<Scalar>, text: seq<byte>)
    requires EncodeAll(vs) == text && EncodeAll(done) <= text
    ensures done <= vs
    ensures EncodeAll(vs[|done|..]) == text[|EncodeAll(done)|..]
  {
    if done == [] {
      assert vs[0..] == vs;
    } else {
      assert Encode(done[0]) <= text;
      assert vs != [] by { EncodedShape(done[0], text); }
      assert Encode(vs[0]) <= text;
      PrefixFree(done[0], vs[0], text);
      var n := |Encode(vs[0])|;
      assert text[n..] == EncodeAll(vs[1..]);
      assert EncodeAll(done)[n..] == EncodeAll(done[1..]);
      PrefixDetermined(done[1..], vs[1..], text[n..]);
      assert vs[1..][|done| - 1..] == vs[|done|..];
    }
  }

  /** A text encodes at most one sequence of scalar values. */
  lemma UniqueDecoding(a: seq<Scalar>, b: seq<Scalar>)
    requires EncodeAll(a) == EncodeAll(b)
    ensures a == b
  {
    PrefixDetermined(a, b, EncodeAll(b));
    PrefixDetermined(b, a, EncodeAll(a));
  }

  lemma {:induction false} EncodeAllAppend(vs: seq<Scalar>, v: Scalar)
    ensures EncodeAll(vs + [v]) == EncodeAll(vs) + Encode(v)
  {
    if vs == [] {
      assert EncodeAll([v]) == Encode(v) + EncodeAll([]);
    } else {
      assert (vs + [v])[1..] == vs[1..] + [v];
      EncodeAllAppend(vs[1..], v);
    }
  }

  /** When no allowed sequence starts after an encoded prefix, the whole text is malformed. */
  lemma Malformed(text: seq<byte>, done: seq<Scalar>)
    requires EncodeAll(done) < text
    requires !SequenceAt(text[|EncodeAll(done)|..])
    ensures !WellFormed(text)
  {
    forall vs: seq<Scalar> ensures EncodeAll(vs) != text {
      if EncodeAll(vs) == text { NextScalar(text, done, vs); }
    }
  }

  lemma NextScalar(text: seq<byte>, done: seq<Scalar>, vs: seq<Scalar>)
    requires EncodeAll(done) < text && EncodeAll(vs) == text
    ensures SequenceAt(text[|EncodeAll(done)|..])
  {
    PrefixDetermined(done, vs, text);
    EncodedShape(vs[|done|], text[|EncodeAll(done)|..]);
  }

  /** An allowed sequence after an encoded prefix makes a longer encoded prefix. */
  lemma Extend(text: seq<byte>, done: seq<Scalar>, i: nat)
    requires i < |text| && EncodeAll(done) == text[..i] && SequenceAt(text[i..])
    ensures EncodeAll(done + [Value(text[i..])]) == text[..i + LeadCount(text[i])]
  {
    var rest := text[i..];
    DecodedShape(rest);
    EncodeAllAppend(done, Value(rest));
    assert text[..i + LeadCount(text[i])] == text[..i] + rest[..LeadCount(text[i])];
  }

  method ValidUtf8(text: seq<byte>) returns (valid: bool)
    ensures valid <==> WellFormed(text)
  {
    hide EncodeAll, Encode, Payload, WellFormed;
    var i := 0;
    ghost var done: seq<Scalar> := [];
    NothingEncoded(text);
    while i < |text|
      invariant 0 <= i <= |text|
      invariant EncodeAll(done) == text[..i]
    {
      var c := text[i];
      ghost var rest := text[i..];
      assert !SequenceAt(rest) ==> !WellFormed(text) by {
        assert EncodeAll(done) < text;
        if !SequenceAt(rest) { Malformed(text, done); }
      }
      if c <= 0x7F {
        PayloadUnrolled(LeadBits(c), rest[1..1]);
        Extend(text, done, i);
        done := done + [c];
        i := i + 1;
        continue;
      }
      PayloadUnrolled(LeadBits(c), rest[1..1]);
      var count: nat, value: nat := 0, 0;
      if c / 32 == 6 {
        count, value := 2, c % 32;
        if value < 2 {
          return false;
        }
      } else if c / 16 == 14 {
        count, value := 3, c % 16;
      } else if c / 8 == 30 {
        count, value := 4, c % 8;
        if value > 4 {
          LeadTooLarge(rest);
          return false;
        }
      } else {
        return false;
      }
      if i + count > |text| { return false; }
      for j := 1 to count
        invariant value == Payload(LeadBits(c), rest[1..j])
        invariant Tail(rest, j)
      {
        var next := text[i + j];
        assert next == rest[j];
        if next / 64 != 2 { return false; }
        PayloadStep(LeadBits(c), rest, j);
        value := value * 64 + next % 64;
      }
      assert value == Value(rest);
      if (count == 3 && value < 0x800) || (count == 4 && value < 0x10000) || value > 0x10FFFF
         || (0xD800 <= value <= 0xDFFF)
      {
        return false;
      }
      Extend(text, done, i);
      done := done + [value];
      i := i + count;
    }
    assert text[..i] == text;
    Encodes(done, text);
    return true;
  }

  lemma NothingEncoded(text: seq<byte>)
    ensures EncodeAll([]) == text[..0]
  {}

  lemma Encodes(vs: seq<Scalar>, text: seq<byte>)
    requires EncodeAll(vs) == text
    ensures WellFormed(text)
  {}

  /** A four-byte sequence whose lead carries more than 4 would pass U+10FFFF. */
  lemma LeadTooLarge(text: seq<byte>)
    requires 0 < |text| && LeadCount(text[0]) == 4 && LeadBits(text[0]) > 4
    ensures !SequenceAt(text)
  {
    if 4 <= |text| { PayloadUnrolled(LeadBits(text[0]), text[1..4]); }
  }

  /** How many bytes do not continue a sequence. */
  ghost function Starts(text: seq<byte>): nat {
    if text == [] then 0 else Starts(text[..|text| - 1]) + (if Continuation(text[|text| - 1]) then 0 else 1)
  }

  lemma {:induction false} StartsAppend(a: seq<byte>, b: seq<byte>)
    ensures Starts(a + b) == Starts(a) + Starts(b)
  {
    if b == [] {
      assert a + b == a;
    } else {
      assert (a + b)[..|a + b| - 1] == a + b[..|b| - 1];
      StartsAppend(a, b[..|b| - 1]);
    }
  }

  lemma StartsOne(v: Scalar)
    ensures Starts(Encode(v)) == 1
  {
    EncodedShape(v, Encode(v));
    var e := Encode(v);
    StartsAppend(e[..1], e[1..]);
    assert e == e[..1] + e[1..] && e[..1][..0] == [];
    assert !Continuation(e[0]);
    StartsNone(e[1..]);
  }

  lemma {:induction false} StartsNone(tail: seq<byte>)
    requires forall k :: 0 <= k < |tail| ==> Continuation(tail[k])
    ensures Starts(tail) == 0
  {
    if tail != [] { StartsNone(tail[..|tail| - 1]); }
  }

  /** Counting start bytes of well-formed text counts its scalar values. */
  lemma {:induction false} StartsCountsScalars(vs: seq<Scalar>)
    ensures Starts(EncodeAll(vs)) == |vs|
  {
    if vs != [] {
      StartsOne(vs[0]);
      StartsCountsScalars(vs[1..]);
      StartsAppend(Encode(vs[0]), EncodeAll(vs[1..]));
    }
  }

  /** The number of characters, or None where the source raises a configuration error. */
  method Utf8Characters(text: seq<byte>) returns (count: Option<nat>)
    ensures count.None? <==> !WellFormed(text)
    ensures forall vs: seq<Scalar> :: EncodeAll(vs) == text ==> count == Some(|vs|)
  {
    var valid := ValidUtf8(text);
    if !valid { return None; }
    var n := 0;
    for i := 0 to |text|
      invariant n == Starts(text[..i])
    {
      assert text[..i + 1][..i] == text[..i];
      if text[i] / 64 != 2 { n := n + 1; }
    }
    assert text[..|text|] == text;
    forall vs: seq<Scalar> | EncodeAll(vs) == text ensures n == |vs| { StartsCountsScalars(vs); }
    return Some(n);
  }

  /** Bytes below 0x80 are their own encoding, so ASCII text is well-formed. */
  lemma {:induction false} AsciiWellFormed(text: seq<byte>)
    requires forall k :: 0 <= k < |text| ==> text[k] < 0x80
    ensures WellFormed(text)
    decreases |text|
  {
    if text == [] {
      assert EncodeAll([]) == text;
    } else {
      var n := |text| - 1;
      AsciiWellFormed(text[..n]);
      var vs: seq<Scalar> :| EncodeAll(vs) == text[..n];
      EncodeAllAppend(vs, text[n]);
      assert text == text[..n] + [text[n]] && Encode(text[n]) == [text[n]];
      assert EncodeAll(vs + [text[n]]) == text;
    }
  }
}
