/** Unpadded base64url, RFC 4648 sections 5 and 3.5: the encoder of sdk/cpp/src/platform.cpp and the
    strict decoder of sdk/cpp/src/core.cpp with its wrapping 32-bit accumulator. */
module Base64Url {
  import opened Common
  import Utf8

  type sextet = v: int | 0 <= v < 64

  /** The character for a six-bit value. */
  function Letter(v: sextet): byte {
    if v < 26 then 65 + v else if v < 52 then 71 + v else if v < 62 then v - 4 else if v == 62 then 45 else 95
  }

  /** The six-bit value of a character, or -1. */
  function Digit(c: byte): int {
    if 65 <= c <= 90 then c - 65
    else if 97 <= c <= 122 then c - 97 + 26
    else if 48 <= c <= 57 then c - 48 + 52
    else if c == 45 then 62
    else if c == 95 then 63
    else -1
  }

  lemma LetterDigit(v: sextet)
    ensures Digit(Letter(v)) == v
  {}

  lemma DigitLetter(c: byte)
    requires Digit(c) >= 0
    ensures Digit(c) < 64 && Letter(Digit(c)) == c
  {}

  ghost function Letters(vs: seq<sextet>): (text: seq<byte>)
    ensures |text| == |vs|
  {
    seq(|vs|, i requires 0 <= i < |vs| => Letter(vs[i]))
  }

  ghost predicate AllDigits(text: seq<byte>) {
    forall k :: 0 <= k < |text| ==> Digit(text[k]) >= 0
  }

  ghost function Digits(text: seq<byte>): (vs: seq<sextet>)
    requires AllDigits(text)
    ensures |vs| == |text|
  {
    seq(|text|, i requires 0 <= i < |text| => DigitLetter(text[i]); Digit(text[i]))
  }

  lemma LettersDigits(vs: seq<sextet>)
    ensures AllDigits(Letters(vs)) && Digits(Letters(vs)) == vs
  {
    forall i | 0 <= i < |vs| ensures Digit(Letters(vs)[i]) == vs[i] { LetterDigit(vs[i]); }
  }

  lemma DigitsLetters(text: seq<byte>)
    requires AllDigits(text)
    ensures Letters(Digits(text)) == text
  {
    forall i | 0 <= i < |text| ensures Letters(Digits(text))[i] == text[i] { DigitLetter(text[i]); }
  }

  // The pieces of a 24-bit group.

  function First(a: byte): sextet { a / 4 }

  function Second(a: byte, b: byte): sextet { a % 4 * 16 + b / 16 }

  function Third(b: byte, c: byte): sextet { b % 16 * 4 + c / 64 }

  function Fourth(c: byte): sextet { c % 64 }

  ghost function Group(a: byte, b: byte, c: byte): seq<sextet> {
    [First(a), Second(a, b), Third(b, c), Fourth(c)]
  }

  function OctetA(p: sextet, q: sextet): byte { p * 4 + q / 16 }

  function OctetB(q: sextet, r: sextet): byte { q % 16 * 16 + r / 4 }

  function OctetC(r: sextet, s: sextet): byte { r % 4 * 64 + s }

  lemma EncodedGroup(a: byte, b: byte, c: byte)
    ensures OctetA(First(a), Second(a, b)) == a
    ensures OctetB(Second(a, b), Third(b, c)) == b
    ensures OctetC(Third(b, c), Fourth(c)) == c
  {}

  lemma DecodedGroup(p: sextet, q: sextet, r: sextet, s: sextet)
    ensures First(OctetA(p, q)) == p
    ensures Second(OctetA(p, q), OctetB(q, r)) == q
    ensures Third(OctetB(q, r), OctetC(r, s)) == r
    ensures Fourth(OctetC(r, s)) == s
  {}

  lemma PadGroup(a: byte, b: byte, p: sextet, q: sextet)
    ensures Second(a, 0) % 16 == 0 && Third(b, 0) % 4 == 0
    ensures q % 16 == 0 ==> Second(OctetA(p, q), 0) == q
    ensures q % 4 == 0 ==> Third(OctetB(p, q), 0) == q
  {
    PadSecond(p, q);
    PadThird(p, q);
  }

  lemma PadSecond(p: sextet, q: sextet)
    ensures q % 16 == 0 ==> (p * 4 + q / 16) % 4 * 16 == q
  {
    assert (p * 4 + q / 16) % 4 == q / 16;
  }

  lemma PadThird(p: sextet, q: sextet)
    ensures q % 4 == 0 ==> (p % 16 * 16 + q / 4) % 16 * 4 == q
  {
    assert (p % 16 * 16 + q / 4) % 16 == q / 4;
  }

  /** The six-bit values by 24-bit groups, with a final group of one or two octets extended by zero bits. */
  ghost function Sextets(bytes: seq<byte>): seq<sextet> {
    if |bytes| == 0 then []
    else if |bytes| == 1 then [First(bytes[0]), Second(bytes[0], 0)]
    else if |bytes| == 2 then [First(bytes[0]), Second(bytes[0], bytes[1]), Third(bytes[1], 0)]
    else Group(bytes[0], bytes[1], bytes[2]) + Sextets(bytes[3..])
  }

  /** The octets of the concatenated six-bit values; an incomplete octet is dropped. */
  ghost function Octets(vs: seq<sextet>): seq<byte> {
    if |vs| < 2 then []
    else if |vs| == 2 then [OctetA(vs[0], vs[1])]
    else if |vs| == 3 then [OctetA(vs[0], vs[1]), OctetB(vs[1], vs[2])]
    else [OctetA(vs[0], vs[1]), OctetB(vs[1], vs[2]), OctetC(vs[2], vs[3])] + Octets(vs[4..])
  }

  /** The values after the last complete group. */
  ghost function Tail(vs: seq<sextet>): (t: seq<sextet>)
    ensures |t| < 4
  {
    if |vs| < 4 then vs else Tail(vs[4..])
  }

  /** What RFC 4648 section 3.5 calls canonical: a possible length, and zero pad bits. */
  ghost predicate Canonical(vs: seq<sextet>) {
    var t := Tail(vs);
    |t| != 1 && (|t| == 2 ==> t[1] % 16 == 0) && (|t| == 3 ==> t[2] % 4 == 0)
  }

  lemma {:induction false} SextetsCanonical(bytes: seq<byte>)
    ensures Canonical(Sextets(bytes)) && Octets(Sextets(bytes)) == bytes
    decreases |bytes|
  {
    hide First, Second, Third, Fourth, OctetA, OctetB, OctetC;
    if |bytes| >= 3 {
      SextetsCanonical(bytes[3..]);
      assert Sextets(bytes)[4..] == Sextets(bytes[3..]);
      EncodedGroup(bytes[0], bytes[1], bytes[2]);
      assert bytes == [bytes[0], bytes[1], bytes[2]] + bytes[3..];
    } else {
      SextetsTail(bytes);
    }
  }

  lemma SextetsTail(bytes: seq<byte>)
    requires |bytes| < 3
    ensures Canonical(Sextets(bytes)) && Octets(Sextets(bytes)) == bytes
  {
    hide First, Second, Third, Fourth, OctetA, OctetB, OctetC;
    if |bytes| == 1 {
      SextetsOne(bytes[0]);
      assert bytes == [bytes[0]];
    } else if |bytes| == 2 {
      SextetsTwo(bytes[0], bytes[1]);
      assert bytes == [bytes[0], bytes[1]];
    }
  }

  lemma SextetsOne(a: byte)
    ensures Canonical(Sextets([a])) && Octets(Sextets([a])) == [a]
  {
    hide First, Second, Third, Fourth, OctetA, OctetB, OctetC;
    PadGroup(a, 0, 0, 0);
    EncodedGroup(a, 0, 0);
  }

  lemma SextetsTwo(a: byte, b: byte)
    ensures Canonical(Sextets([a, b])) && Octets(Sextets([a, b])) == [a, b]
  {
    hide First, Second, Third, Fourth, OctetA, OctetB, OctetC;
    PadGroup(0, b, 0, 0);
    EncodedGroup(a, b, 0);
  }

  lemma {:induction false} OctetsCanonical(vs: seq<sextet>)
    requires Canonical(vs)
    ensures Sextets(Octets(vs)) == vs
    decreases |vs|
  {
    hide First, Second, Third, Fourth, OctetA, OctetB, OctetC;
    if |vs| >= 4 {
      OctetsCanonical(vs[4..]);
      DecodedGroup(vs[0], vs[1], vs[2], vs[3]);
      assert Octets(vs)[3..] == Octets(vs[4..]);
    } else if |vs| == 3 {
      DecodedGroup(vs[0], vs[1], vs[2], 0);
      PadGroup(0, 0, vs[1], vs[2]);
    } else if |vs| == 2 {
      DecodedGroup(vs[0], vs[1], 0, 0);
      PadGroup(0, 0, vs[0], vs[1]);
    }
  }

  ghost function Encoded(bytes: seq<byte>): seq<byte> { Letters(Sextets(bytes)) }

  /** The shifts and masks of a 24-bit group. */
  lemma GroupBits(a: byte, b: byte, c: byte)
    ensures var value := a * 0x10000 + b * 0x100 + c;
            && value / 0x40000 % 64 == First(a) && value / 0x1000 % 64 == Second(a, b)
            && value / 64 % 64 == Third(b, c) && value % 64 == Fourth(c)
  {
    GroupHigh(a, b, c);
    GroupLow(a, b, c);
  }

  lemma GroupHigh(a: byte, b: byte, c: byte)
    ensures (a * 0x10000 + b * 0x100 + c) / 0x40000 % 64 == First(a)
    ensures (a * 0x10000 + b * 0x100 + c) / 0x1000 % 64 == Second(a, b)
  {
    var value := a * 0x10000 + b * 0x100 + c;
    assert value / 0x40000 == a / 4;
    assert value / 0x1000 == a * 16 + b / 16;
  }

  lemma GroupLow(a: byte, b: byte, c: byte)
    ensures (a * 0x10000 + b * 0x100 + c) / 64 % 64 == Third(b, c)
    ensures (a * 0x10000 + b * 0x100 + c) % 64 == Fourth(c)
  {
    assert (a * 0x10000 + b * 0x100 + c) / 64 == a * 1024 + b * 4 + c / 64;
  }

  /** The letters that one pass of the encoder's loop pushes. */
  lemma PushGroup(bytes: seq<byte>, i: nat, vs: seq<sextet>, more: seq<sextet>)
    requires i + 3 <= |bytes| && vs + Sextets(bytes[i..]) == Sextets(bytes)
    requires more == Group(bytes[i], bytes[i + 1], bytes[i + 2])
    ensures (vs + more) + Sextets(bytes[i + 3..]) == Sextets(bytes)
  {
    assert bytes[i..][3..] == bytes[i + 3..];
    assert Sextets(bytes[i..]) == more + Sextets(bytes[i + 3..]);
  }

  method Base64UrlWithoutPadding(bytes: seq<byte>) returns (output: seq<byte>)
    ensures output == Encoded(bytes)
  {
    hide First, Second, Third, Fourth, Letter;
    output := [];
    ghost var vs: seq<sextet> := [];
    var i := 0;
    while i + 3 <= |bytes|
      invariant 0 <= i <= |bytes|
      invariant vs + Sextets(bytes[i..]) == Sextets(bytes) && output == Letters(vs)
    {
      var a: nat, b: nat, c: nat := bytes[i], bytes[i + 1], bytes[i + 2];
      var value := a * 0x10000 + b * 0x100 + c;
      GroupBits(a, b, c);
      ghost var more := Group(a, b, c);
      PushGroup(bytes, i, vs, more);
      LettersAppend(vs, more);
      output := output + [Letter(value / 0x40000 % 64)];
      output := output + [Letter(value / 0x1000 % 64)];
      output := output + [Letter(value / 64 % 64)];
      output := output + [Letter(value % 64)];
      vs := vs + more;
      i := i + 3;
    }
    var tail := LastGroup(bytes[i..]);
    LettersAppend(vs, Sextets(bytes[i..]));
    output := output + tail;
  }

  lemma LettersAppend(a: seq<sextet>, b: seq<sextet>)
    ensures Letters(a + b) == Letters(a) + Letters(b)
  {}

  /** The final one or two octets, when the length is not a multiple of three. */
  method LastGroup(bytes: seq<byte>) returns (output: seq<byte>)
    requires |bytes| < 3
    ensures output == Encoded(bytes)
  {
    output := [];
    var remaining := |bytes|;
    if remaining == 1 {
      var a: nat := bytes[0];
      var value := a * 0x10000;
      GroupBits(a, 0, 0);
      output := output + [Letter(value / 0x40000 % 64)];
      output := output + [Letter(value / 0x1000 % 64)];
    } else if remaining == 2 {
      var a: nat, b: nat := bytes[0], bytes[1];
      var value := a * 0x10000 + b * 0x100;
      GroupBits(a, b, 0);
      output := output + [Letter(value / 0x40000 % 64)];
      output := output + [Letter(value / 0x1000 % 64)];
      output := output + [Letter(value / 64 % 64)];
    }
  }

  /** 1 << bits, for the bit counts the decoder reaches. */
  function Power(bits: nat): nat {
    if bits == 0 then 1 else if bits == 2 then 4 else if bits == 4 then 16 else 64
  }

  // One turn of the decoder's loop, modulo 2^32. The low twelve bits survive the wrap.

  lemma Wrap(n: nat) returns (high: nat)
    ensures n % TWO_TO_32 == 4096 * high + n % 4096
  {
    var t, r := n / TWO_TO_32, n % TWO_TO_32;
    high := r / 4096;
    Remainder(1048576 * t + high, r % 4096);
  }

  lemma Remainder(t: nat, r: nat)
    requires r < 4096
    ensures (4096 * t + r) % 4096 == r
  {}

  lemma LowTwelve(accumulator: nat, value: sextet) returns (high: nat)
    ensures (accumulator * 64 + value) % TWO_TO_32 == 4096 * high + accumulator % 64 * 64 + value
  {
    high := Wrap(accumulator * 64 + value);
    Remainder(accumulator / 64, accumulator % 64 * 64 + value);
  }

  lemma By256(t: nat, r: nat)
    requires r < 256
    ensures (256 * t + r) % 256 == r
  {}

  lemma By16(t: nat, r: nat)
    requires r < 16
    ensures (16 * t + r) / 16 == t
  {}

  lemma By4(t: nat, r: nat)
    requires r < 4
    ensures (4 * t + r) / 4 == t
  {}

  lemma TakeTwo(high: nat, u: nat, value: sextet)
    requires u < 64
    ensures (4096 * high + u * 64 + value) % 256 == OctetC(u, value)
  {
    By256(16 * high + u / 4, u % 4 * 64 + value);
  }

  lemma TakeFour(high: nat, u: nat, value: sextet)
    requires u < 64
    ensures (4096 * high + u * 64 + value) / 4 % 256 == OctetB(u, value)
  {
    By4(1024 * high + 16 * u + value / 4, value % 4);
    By256(4 * high + u / 16, u % 16 * 16 + value / 4);
  }

  lemma TakeSix(high: nat, u: nat, value: sextet)
    requires u < 64
    ensures (4096 * high + u * 64 + value) / 16 % 256 == OctetA(u, value)
  {
    By16(256 * high + 4 * u + value / 16, value % 16);
    By256(high, u * 4 + value / 16);
  }

  lemma By64(t: nat, r: nat)
    requires r < 64
    ensures (64 * t + r) % 64 == r
  {}

  lemma TakeAll(shifted: nat, high: nat, previous: sextet, value: sextet)
    requires shifted == 4096 * high + previous * 64 + value
    ensures shifted % 64 == value && shifted % 256 == OctetC(previous, value)
    ensures shifted / 4 % 256 == OctetB(previous, value) && shifted / 16 % 256 == OctetA(previous, value)
  {
    hide OctetA, OctetB, OctetC;
    TakeTwo(high, previous, value);
    TakeFour(high, previous, value);
    TakeSix(high, previous, value);
    By64(64 * high + previous, value);
  }

  /** The low six bits of the accumulator are the previous value, whatever was shifted out. */
  lemma ShiftIn(accumulator: nat, previous: sextet, value: sextet)
    requires accumulator % 64 == previous
    ensures var shifted := (accumulator * 64 + value) % TWO_TO_32;
            && shifted % 64 == value && shifted % 256 == OctetC(previous, value)
            && shifted / 4 % 256 == OctetB(previous, value) && shifted / 16 % 256 == OctetA(previous, value)
  {
    hide OctetA, OctetB, OctetC;
    var high := LowTwelve(accumulator, value);
    TakeAll((accumulator * 64 + value) % TWO_TO_32, high, previous, value);
  }

  lemma {:induction false} OctetsAppend(a: seq<sextet>, b: seq<sextet>, groups: nat)
    requires |a| == 4 * groups
    ensures Octets(a + b) == Octets(a) + Octets(b)
    decreases groups
  {
    hide OctetA, OctetB, OctetC;
    if groups == 0 {
      assert a + b == b;
    } else {
      assert (a + b)[4..] == a[4..] + b;
      OctetsAppend(a[4..], b, groups - 1);
    }
  }

  /** What one more value adds to the octets. */
  lemma OctetsStep(vs: seq<sextet>, k: nat)
    requires k < |vs|
    ensures k % 4 == 0 ==> Octets(vs[..k + 1]) == Octets(vs[..k])
    ensures k % 4 == 1 ==> Octets(vs[..k + 1]) == Octets(vs[..k]) + [OctetA(vs[k - 1], vs[k])]
    ensures k % 4 == 2 ==> Octets(vs[..k + 1]) == Octets(vs[..k]) + [OctetB(vs[k - 1], vs[k])]
    ensures k % 4 == 3 ==> Octets(vs[..k + 1]) == Octets(vs[..k]) + [OctetC(vs[k - 1], vs[k])]
  {
    hide First, Second, Third, Fourth, OctetA, OctetB, OctetC;
    var g := 4 * (k / 4);
    OctetsAppend(vs[..g], vs[g..k], k / 4);
    OctetsAppend(vs[..g], vs[g..k + 1], k / 4);
    assert vs[..g] + vs[g..k] == vs[..k] && vs[..g] + vs[g..k + 1] == vs[..k + 1];
  }

  /** The texts that encode something acceptable. */
  ghost predicate Accepted(text: seq<byte>) {
    text != [] && AllDigits(text) && Canonical(Digits(text)) && Utf8.WellFormed(Octets(Digits(text)))
  }

  lemma EncodedAccepted(bytes: seq<byte>)
    requires bytes != [] && Utf8.WellFormed(bytes)
    ensures Accepted(Encoded(bytes)) && Octets(Digits(Encoded(bytes))) == bytes
  {
    SextetsCanonical(bytes);
    LettersDigits(Sextets(bytes));
  }

  lemma AcceptedEncoded(text: seq<byte>)
    requires Accepted(text)
    ensures Octets(Digits(text)) != [] && Encoded(Octets(Digits(text))) == text
  {
    OctetsCanonical(Digits(text));
    DigitsLetters(text);
  }

  /** Decodes exactly the encodings of non-empty well-formed UTF-8, and rejects everything else. */
  method DecodeAppKeyOrigin(encoded: seq<byte>) returns (result: Option<seq<byte>>)
    ensures result.Some? ==> result.value != [] && Utf8.WellFormed(result.value) && Encoded(result.value) == encoded
    ensures result.None? ==> forall b: seq<byte> :: b != [] && Utf8.WellFormed(b) ==> Encoded(b) != encoded
  {
    result := DecodeCanonical(encoded);
    if result.Some? {
      AcceptedEncoded(encoded);
    } else {
      forall b: seq<byte> | b != [] && Utf8.WellFormed(b) ensures Encoded(b) != encoded { EncodedAccepted(b); }
    }
  }

  /** What the decoder has after k characters. */
  ghost predicate After(text: seq<byte>, k: nat, accumulator: nat, bits: nat, decoded: seq<byte>)
    requires k <= |text|
  {
    && AllDigits(text[..k])
    && bits == (if k % 4 == 0 then 0 else 8 - 2 * (k % 4))
    && accumulator % 64 == (if k == 0 then 0 else Digits(text[..k])[k - 1])
    && decoded == Octets(Digits(text[..k]))
  }

  lemma Turn(text: seq<byte>, k: nat, accumulator: nat, bits: nat, decoded: seq<byte>)
    requires k < |text| && After(text, k, accumulator, bits, decoded) && Digit(text[k]) >= 0
    ensures var shifted := (accumulator * 64 + Digit(text[k])) % TWO_TO_32;
            if bits + 6 < 8 then After(text, k + 1, shifted, bits + 6, decoded)
            else After(text, k + 1, shifted, bits - 2, decoded + [shifted / Power(bits - 2) % 256])
  {
    hide First, Second, Third, Fourth, OctetA, OctetB, OctetC, Digit, Letter, Octets;
    DigitLetter(text[k]);
    var vs := Digits(text[..k + 1]);
    assert vs[..k] == Digits(text[..k]);
    ShiftIn(accumulator, if k == 0 then 0 else vs[k - 1], vs[k]);
    OctetsStep(vs, k);
    assert vs[..k + 1] == vs;
  }

  lemma {:induction false} TailIsLast(vs: seq<sextet>, groups: nat)
    requires 4 * groups <= |vs| < 4 * groups + 4
    ensures Tail(vs) == vs[4 * groups..]
    decreases groups
  {
    if groups > 0 {
      TailIsLast(vs[4..], groups - 1);
      assert vs[4..][4 * (groups - 1)..] == vs[4 * groups..];
    }
  }

  lemma LastBits(accumulator: nat, bits: nat)
    ensures bits == 2 ==> accumulator % Power(bits) == accumulator % 64 % 4
    ensures bits == 4 ==> accumulator % Power(bits) == accumulator % 64 % 16
  {
    LastTwo(accumulator / 64, accumulator % 64);
    LastFour(accumulator / 64, accumulator % 64);
    assert accumulator == 64 * (accumulator / 64) + accumulator % 64;
    assert Power(2) == 4 && Power(4) == 16;
    hide Power;
  }

  lemma Rem4(t: nat, u: nat)
    requires u < 4
    ensures (4 * t + u) % 4 == u
  {}

  lemma Rem16(t: nat, u: nat)
    requires u < 16
    ensures (16 * t + u) % 16 == u
  {}

  lemma LastTwo(q: nat, r: nat)
    ensures (64 * q + r) % 4 == r % 4
  {
    Rem4(16 * q + r / 4, r % 4);
  }

  lemma LastFour(q: nat, r: nat)
    ensures (64 * q + r) % 16 == r % 16
  {
    Rem16(4 * q + r / 16, r % 16);
  }

  lemma ImpossibleLength(text: seq<byte>)
    requires |text| == 0 || |text| % 4 == 1
    ensures !Accepted(text)
  {
    if AllDigits(text) { TailIsLast(Digits(text), |text| / 4); }
  }

  /** The pad bits the decoder looks at are the ones that make the text canonical. */
  lemma PadBits(text: seq<byte>, accumulator: nat, bits: nat, decoded: seq<byte>)
    requires |text| % 4 != 1 && After(text, |text|, accumulator, bits, decoded)
    ensures AllDigits(text) && decoded == Octets(Digits(text))
    ensures Canonical(Digits(text)) <==> bits == 0 || accumulator % Power(bits) == 0
  {
    hide OctetA, OctetB, OctetC, Power;
    assert text[..|text|] == text;
    TailIsLast(Digits(text), |text| / 4);
    LastBits(accumulator, bits);
  }

  method DecodeCanonical(encoded: seq<byte>) returns (result: Option<seq<byte>>)
    ensures result == if Accepted(encoded) then Some(Octets(Digits(encoded))) else None
  {
    if |encoded| == 0 || |encoded| % 4 == 1 {
      ImpossibleLength(encoded);
      return None;
    }
    var decoded: seq<byte> := [];
    var accumulator: nat, bits: nat := 0, 0;
    for k := 0 to |encoded|
      invariant After(encoded, k, accumulator, bits, decoded)
    {
      var value := Digit(encoded[k]);
      if value < 0 {
        return None;
      }
      Turn(encoded, k, accumulator, bits, decoded);
      accumulator := (accumulator * 64 + value) % TWO_TO_32;
      bits := bits + 6;
      if bits >= 8 {
        bits := bits - 8;
        decoded := decoded + [accumulator / Power(bits) % 256];
      }
    }
    PadBits(encoded, accumulator, bits, decoded);
    if bits != 0 && accumulator % Power(bits) != 0 {
      return None;
    }
    var valid := Utf8.ValidUtf8(decoded);
    return if valid then Some(decoded) else None;
  }
}
