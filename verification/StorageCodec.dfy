/** The private binary record of sdk/go/storage_codec.go: the encoder, the consuming decoder, and the proof that
    decoding is the exact inverse of encoding. */
module StorageCodec {
  import opened Common
  import opened Text
  import opened Storage
  import Utf8

  const PLAINTEXT_LIMIT := 32768

  datatype StorageScope = StorageScope(
    issuer: Text, applicationID: Text, environmentID: Text, installationID: Text,
    fingerprint: Option<Text>, provider: Option<Text>)
  {
    /** What newStorageScope demands before it builds a scope. */
    ghost predicate Valid() {
      && Opaque(applicationID) && Opaque(environmentID)
      && issuer != [] && |issuer| <= PLAINTEXT_LIMIT && Utf8.WellFormed(issuer)
      && Opaque(installationID) && 16 <= |installationID|
      && ValidBinding(fingerprint, provider)
    }

    predicate Accepts(credential: Option<StoredCredential>) {
      credential.Some? ==>
        var c := credential.value;
        && c.applicationID == applicationID && c.environmentID == environmentID && c.installationID == installationID
        && c.fingerprint == fingerprint && c.fingerprintProvider == provider
        && Opaque(c.activationID) && Opaque(c.licenceID) && Bearer(c.credential)
        && 0 < c.credentialExpiresAt <= MAX_INT64
    }
  }

  // ----- Big-endian numbers -----

  function Power256(width: nat): (p: nat)
    ensures p > 0
  {
    if width == 0 then 1 else 256 * Power256(width - 1)
  }

  function BigEndian(v: nat, width: nat): (b: seq<byte>)
    ensures |b| == width
  {
    if width == 0 then [] else BigEndian(v / 256, width - 1) + [v % 256]
  }

  function FromBigEndian(b: seq<byte>): nat {
    if b == [] then 0 else FromBigEndian(b[..|b| - 1]) * 256 + b[|b| - 1]
  }

  lemma {:induction false} NumberRoundTrip(v: nat, width: nat)
    requires v < Power256(width)
    ensures FromBigEndian(BigEndian(v, width)) == v
  {
    if width > 0 {
      NumberRoundTrip(v / 256, width - 1);
      assert BigEndian(v, width)[..width - 1] == BigEndian(v / 256, width - 1);
    }
  }

  lemma {:induction false} BytesRoundTrip(b: seq<byte>)
    ensures FromBigEndian(b) < Power256(|b|)
    ensures BigEndian(FromBigEndian(b), |b|) == b
  {
    if b != [] {
      var front, last := b[..|b| - 1], b[|b| - 1];
      BytesRoundTrip(front);
      assert (FromBigEndian(front) * 256 + last) / 256 == FromBigEndian(front);
    }
  }

  lemma Widths()
    ensures Power256(4) == TWO_TO_32 && Power256(8) == TWO_TO_64
  {
    assert Power256(4) == 256 * (256 * Power256(2)) && Power256(2) == 256 * Power256(1);
    assert Power256(8) == 256 * (256 * Power256(6)) && Power256(6) == 256 * (256 * Power256(4));
  }

  // ----- The layout -----

  const MAGIC: seq<byte> := [79, 71, 83, 1]

  function Field(value: Text): seq<byte> { BigEndian(|value| % TWO_TO_32, 4) + value }

  function OptionalField(value: Option<Text>): seq<byte> {
    if value.None? then [0] else [1] + Field(value.value)
  }

  function CredentialPart(credential: Option<StoredCredential>): seq<byte>
    requires credential.Some? ==> credential.value.credentialExpiresAt >= 0
  {
    if credential.None? then [0]
    else
      var c := credential.value;
      [1] + (Field(c.activationID) + (Field(c.licenceID) + (Field(c.credential) + BigEndian(c.credentialExpiresAt, 8))))
  }

  function Layout(scope: StorageScope, generation: nat, credential: Option<StoredCredential>): seq<byte>
    requires credential.Some? ==> credential.value.credentialExpiresAt >= 0
  {
    MAGIC + (BigEndian(generation, 8) + (Field(scope.issuer) + (Field(scope.applicationID)
    + (Field(scope.environmentID) + (Field(scope.installationID) + (OptionalField(scope.fingerprint)
    + (OptionalField(scope.provider) + CredentialPart(credential))))))))
  }

  /** The bytes are the record of this generation and credential. */
  predicate Represents(scope: StorageScope, generation: nat, credential: Option<StoredCredential>, data: seq<byte>) {
    && generation <= MAX_INT64 && scope.Accepts(credential)
    && data == Layout(scope, generation, credential) && |data| <= PLAINTEXT_LIMIT
  }

  method EncodeStorageRecord(scope: StorageScope, generation: nat, credential: Option<StoredCredential>)
    returns (result: Option<seq<byte>>)
    requires generation <= MAX_UINT64
    ensures result.Some? ==> Represents(scope, generation, credential, result.value)
    ensures result.None? ==> forall data :: !Represents(scope, generation, credential, data)
  {
    hide BigEndian, Field, OptionalField, CredentialPart, Layout, StorageScope.Accepts;
    if generation > MAX_INT64 || !scope.Accepts(credential) { return None; }
    Positive(scope, credential);
    var data: seq<byte> := MAGIC + BigEndian(generation, 8);
    data := AppendStrings(data, [scope.issuer, scope.applicationID, scope.environmentID, scope.installationID]);
    var options := [scope.fingerprint, scope.provider];
    ghost var head := data;
    for i := 0 to |options|
      invariant data == (if i == 0 then head else if i == 1 then head + OptionalField(options[0])
                         else head + OptionalField(options[0]) + OptionalField(options[1]))
    {
      data := AppendOptional(data, options[i]);
    }
    ghost var prefix := data;
    if credential.None? {
      data := data + [0];
      NoCredential();
    } else {
      var c := credential.value;
      data := data + [1];
      data := AppendStrings(data, [c.activationID, c.licenceID, c.credential]);
      data := data + BigEndian(c.credentialExpiresAt, 8);
      AssembleCredential(prefix, c);
    }
    AssembleLayout(scope, generation, credential);
    if |data| > PLAINTEXT_LIMIT { return None; }
    return Some(data);
  }

  lemma Positive(scope: StorageScope, credential: Option<StoredCredential>)
    requires scope.Accepts(credential)
    ensures credential.Some? ==> credential.value.credentialExpiresAt >= 0
  {}

  lemma NoCredential()
    ensures CredentialPart(None) == [0]
  {}

  lemma AssembleCredential(prefix: seq<byte>, c: StoredCredential)
    requires c.credentialExpiresAt >= 0
    ensures prefix + [1] + Fields([c.activationID, c.licenceID, c.credential]) + BigEndian(c.credentialExpiresAt, 8)
         == prefix + CredentialPart(Some(c))
  {
    hide BigEndian, Field, Fields;
    ThreeFields(c.activationID, c.licenceID, c.credential);
  }

  lemma AssembleLayout(scope: StorageScope, generation: nat, credential: Option<StoredCredential>)
    requires credential.Some? ==> credential.value.credentialExpiresAt >= 0
    ensures MAGIC + BigEndian(generation, 8)
      + Fields([scope.issuer, scope.applicationID, scope.environmentID, scope.installationID])
      + OptionalField(scope.fingerprint) + OptionalField(scope.provider) + CredentialPart(credential)
      == Layout(scope, generation, credential)
  {
    hide BigEndian, Field, OptionalField, CredentialPart, Fields;
    FourFields(scope.issuer, scope.applicationID, scope.environmentID, scope.installationID);
  }

  method AppendString(data: seq<byte>, value: Text) returns (result: seq<byte>)
    ensures result == data + Field(value)
  {
    result := data + BigEndian(|value| % TWO_TO_32, 4);
    result := result + value;
  }

  method AppendStrings(data: seq<byte>, values: seq<Text>) returns (result: seq<byte>)
    ensures result == data + Fields(values)
  {
    hide Field;
    result := data;
    for i := 0 to |values|
      invariant result == data + Fields(values[..i])
    {
      FieldsAppend(values[..i], values[i]);
      assert values[..i + 1] == values[..i] + [values[i]];
      result := AppendString(result, values[i]);
    }
    assert values[..|values|] == values;
  }

  method AppendOptional(data: seq<byte>, value: Option<Text>) returns (result: seq<byte>)
    ensures result == data + OptionalField(value)
  {
    if value.None? {
      result := data + [0];
    } else {
      result := data + [1];
      result := AppendString(result, value.value);
    }
  }

  ghost function Fields(values: seq<Text>): seq<byte> {
    if values == [] then [] else Fields(values[..|values| - 1]) + Field(values[|values| - 1])
  }

  lemma FieldsAppend(values: seq<Text>, value: Text)
    ensures Fields(values + [value]) == Fields(values) + Field(value)
  {
    assert (values + [value])[..|values|] == values;
  }

  lemma ThreeFields(a: Text, b: Text, c: Text)
    ensures Fields([a, b, c]) == Field(a) + Field(b) + Field(c)
  {
    assert [a, b, c][..2] == [a, b] && [a, b][..1] == [a] && [a][..0] == [];
    assert Fields([a]) == Fields([]) + Field(a);
    assert Fields([a, b]) == Fields([a]) + Field(b);
  }

  lemma FourFields(a: Text, b: Text, c: Text, d: Text)
    ensures Fields([a, b, c, d]) == Field(a) + Field(b) + Field(c) + Field(d)
  {
    ThreeFields(a, b, c);
    assert [a, b, c, d][..3] == [a, b, c];
  }

  // ----- Reading one item from the front -----

  ghost function ReadNumber(data: seq<byte>, width: nat): Option<(nat, seq<byte>)> {
    if width <= |data| then Some((FromBigEndian(data[..width]), data[width..])) else None
  }

  ghost function ReadText(data: seq<byte>, limit: nat): Option<(Text, seq<byte>)> {
    match ReadNumber(data, 4)
    case None => None
    case Some((size, rest)) =>
      if size > limit || size > |rest| || !Utf8.WellFormed(rest[..size]) then None
      else Some((rest[..size], rest[size..]))
  }

  ghost function ReadFlag(data: seq<byte>): Option<(bool, seq<byte>)> {
    if |data| >= 1 && data[0] <= 1 then Some((data[0] == 1, data[1..])) else None
  }

  ghost function ReadOptional(data: seq<byte>, limit: nat): Option<(Option<Text>, seq<byte>)> {
    match ReadFlag(data)
    case None => None
    case Some((false, rest)) => Some((None, rest))
    case Some((true, rest)) =>
      match ReadText(rest, limit) case None => None case Some((v, rest')) => Some((Some(v), rest'))
  }

  lemma ReadNumberInverse(v: nat, width: nat, rest: seq<byte>)
    requires v < Power256(width)
    ensures ReadNumber(BigEndian(v, width) + rest, width) == Some((v, rest))
  {
    var data := BigEndian(v, width) + rest;
    assert data[..width] == BigEndian(v, width) && data[width..] == rest;
    NumberRoundTrip(v, width);
  }

  lemma ReadNumberExact(data: seq<byte>, width: nat)
    requires ReadNumber(data, width).Some?
    ensures var (v, rest) := ReadNumber(data, width).value; v < Power256(width) && data == BigEndian(v, width) + rest
  {
    BytesRoundTrip(data[..width]);
  }

  lemma ReadTextInverse(value: Text, limit: nat, rest: seq<byte>)
    requires |value| <= limit < TWO_TO_32 && Utf8.WellFormed(value)
    ensures ReadText(Field(value) + rest, limit) == Some((value, rest))
  {
    hide BigEndian, ReadNumber, Utf8.WellFormed;
    Widths();
    assert Field(value) + rest == BigEndian(|value|, 4) + (value + rest);
    ReadNumberInverse(|value|, 4, value + rest);
    assert (value + rest)[..|value|] == value && (value + rest)[|value|..] == rest;
  }

  lemma ReadTextExact(data: seq<byte>, limit: nat)
    requires limit < TWO_TO_32 && ReadText(data, limit).Some?
    ensures var (v, rest) := ReadText(data, limit).value; data == Field(v) + rest
  {
    hide BigEndian, ReadNumber;
    ReadNumberExact(data, 4);
    var (size, after) := ReadNumber(data, 4).value;
    assert after == after[..size] + after[size..];
    assert BigEndian(size, 4) + after == Field(after[..size]) + after[size..];
  }

  lemma ReadOptionalInverse(value: Option<Text>, limit: nat, rest: seq<byte>)
    requires value.Some? ==> |value.value| <= limit && Utf8.WellFormed(value.value)
    requires limit < TWO_TO_32
    ensures ReadOptional(OptionalField(value) + rest, limit) == Some((value, rest))
  {
    hide Field, ReadText;
    var data := OptionalField(value) + rest;
    if value.None? {
      assert data[1..] == rest;
    } else {
      assert data[1..] == Field(value.value) + rest;
      ReadTextInverse(value.value, limit, rest);
    }
  }

  lemma ReadOptionalExact(data: seq<byte>, limit: nat)
    requires limit < TWO_TO_32 && ReadOptional(data, limit).Some?
    ensures var (v, rest) := ReadOptional(data, limit).value; data == OptionalField(v) + rest
  {
    assert data == [data[0]] + data[1..];
    if data[0] == 1 {
      ReadTextExact(data[1..], limit);
      var (v, rest) := ReadText(data[1..], limit).value;
      assert [1] + (Field(v) + rest) == OptionalField(Some(v)) + rest;
    }
  }

  // ----- The decoder object -----

  class StorageDecoder {
    var data: seq<byte>
    var bad: bool

    constructor (data: seq<byte>)
      ensures this.data == data && !bad
    {
      this.data, bad := data, false;
    }

    method Take(size: nat) returns (value: seq<byte>)
      modifies this
      ensures old(bad) ==> bad
      ensures size <= |old(data)| ==> bad == old(bad) && value == old(data)[..size] && data == old(data)[size..]
      ensures size > |old(data)| ==> bad && value == [] && data == old(data)
    {
      if size > |data| {
        bad := true;
        return [];
      }
      value := data[..size];
      data := data[size..];
    }

    method Number() returns (value: nat)
      modifies this
      ensures old(bad) ==> bad
      ensures !old(bad) ==> (bad <==> ReadNumber(old(data), 8).None?)
      ensures !bad ==> ReadNumber(old(data), 8) == Some((value, data))
      ensures value <= MAX_UINT64
    {
      var bytes := Take(8);
      if |bytes| != 8 { return 0; }
      BytesRoundTrip(bytes);
      Widths();
      return FromBigEndian(bytes);
    }

    method TextField(limit: nat) returns (value: Text)
      modifies this
      ensures old(bad) ==> bad
      ensures !old(bad) ==> (bad <==> ReadText(old(data), limit).None?)
      ensures !bad ==> ReadText(old(data), limit) == Some((value, data))
    {
      var prefix := Take(4);
      if |prefix| != 4 { return []; }
      var size := FromBigEndian(prefix);
      if size > limit || size > |data| {
        bad := true;
        return [];
      }
      value := Take(size);
      var valid := Utf8.ValidUtf8(value);
      if !valid { bad := true; }
    }

    method Present() returns (present: bool)
      modifies this
      ensures old(bad) ==> bad
      ensures !old(bad) ==> (bad <==> ReadFlag(old(data)).None?)
      ensures !bad ==> ReadFlag(old(data)) == Some((present, data))
    {
      var flag := Take(1);
      if |flag| != 1 || flag[0] > 1 {
        bad := true;
        return false;
      }
      return flag[0] == 1;
    }

    method Optional(limit: nat) returns (value: Option<Text>)
      modifies this
      ensures old(bad) ==> bad
      ensures !old(bad) ==> (bad <==> ReadOptional(old(data), limit).None?)
      ensures !bad ==> ReadOptional(old(data), limit) == Some((value, data))
    {
      var present := Present();
      if !present { return None; }
      var text := TextField(limit);
      return Some(text);
    }
  }

  // ----- The whole record -----

  /** The part before the credential: the header is right and carries this generation, and rest follows it. */
  ghost predicate HeadIs(scope: StorageScope, data: seq<byte>, generation: nat, rest: seq<byte>) {
    && generation <= MAX_INT64
    && data == MAGIC + (BigEndian(generation, 8) + (Field(scope.issuer) + (Field(scope.applicationID)
       + (Field(scope.environmentID) + (Field(scope.installationID) + (OptionalField(scope.fingerprint)
       + (OptionalField(scope.provider) + rest)))))))
  }

  lemma HeadOfLayout(scope: StorageScope, generation: nat, credential: Option<StoredCredential>, data: seq<byte>)
    requires Represents(scope, generation, credential, data)
    ensures HeadIs(scope, data, generation, CredentialPart(credential))
  {}

  lemma NumberUnique(v: nat, w: nat, a: seq<byte>, b: seq<byte>)
    requires v <= MAX_INT64 && w <= MAX_INT64 && BigEndian(v, 8) + a == BigEndian(w, 8) + b
    ensures v == w && a == b
  {
    Widths();
    ReadNumberInverse(v, 8, a);
    ReadNumberInverse(w, 8, b);
  }

  lemma FieldUnique(v: Text, a: seq<byte>, b: seq<byte>)
    requires Field(v) + a == Field(v) + b
    ensures a == b
  {
    assert a == (Field(v) + a)[|Field(v)|..] && b == (Field(v) + b)[|Field(v)|..];
  }

  lemma OptionalUnique(v: Option<Text>, a: seq<byte>, b: seq<byte>)
    requires OptionalField(v) + a == OptionalField(v) + b
    ensures a == b
  {
    var n := |OptionalField(v)|;
    assert a == (OptionalField(v) + a)[n..] && b == (OptionalField(v) + b)[n..];
  }

  lemma HeadUnique(scope: StorageScope, data: seq<byte>, g: nat, a: seq<byte>, h: nat, b: seq<byte>)
    requires HeadIs(scope, data, g, a) && HeadIs(scope, data, h, b)
    ensures g == h && a == b
  {
    var a1, b1 := OptionalField(scope.provider) + a, OptionalField(scope.provider) + b;
    var a2, b2 := OptionalField(scope.fingerprint) + a1, OptionalField(scope.fingerprint) + b1;
    var a3, b3 := Field(scope.installationID) + a2, Field(scope.installationID) + b2;
    var a4, b4 := Field(scope.environmentID) + a3, Field(scope.environmentID) + b3;
    var a5, b5 := Field(scope.applicationID) + a4, Field(scope.applicationID) + b4;
    var a6, b6 := Field(scope.issuer) + a5, Field(scope.issuer) + b5;
    assert data[4..] == BigEndian(g, 8) + a6 && data[4..] == BigEndian(h, 8) + b6;
    NumberUnique(g, h, a6, b6);
    FieldUnique(scope.issuer, a5, b5);
    FieldUnique(scope.applicationID, a4, b4);
    FieldUnique(scope.environmentID, a3, b3);
    FieldUnique(scope.installationID, a2, b2);
    OptionalUnique(scope.fingerprint, a1, b1);
    OptionalUnique(scope.provider, a, b);
  }

  method DecodeHead(scope: StorageScope, d: StorageDecoder) returns (generation: Option<nat>)
    requires scope.Valid() && !d.bad
    modifies d
    ensures generation.Some? ==> !d.bad && HeadIs(scope, old(d.data), generation.value, d.data)
    ensures generation.None? ==> forall g, rest :: !HeadIs(scope, old(d.data), g, rest)
  {
    ghost var start := d.data;
    var magic := d.Take(4);
    if magic != MAGIC { return None; }
    assert start == MAGIC + start[4..];
    ghost var d1 := d.data;
    var number := d.Number();
    ghost var d2 := d.data;
    var issuer := d.TextField(PLAINTEXT_LIMIT);
    ghost var d3 := d.data;
    var application := d.TextField(128);
    ghost var d4 := d.data;
    var environment := d.TextField(128);
    ghost var d5 := d.data;
    var installation := d.TextField(128);
    ghost var d6 := d.data;
    var fingerprint := d.Optional(64);
    ghost var d7 := d.data;
    var provider := d.Optional(55);
    var matches := !d.bad && number <= MAX_INT64 && issuer == scope.issuer && application == scope.applicationID
      && environment == scope.environmentID && installation == scope.installationID
      && fingerprint == scope.fingerprint && provider == scope.provider;
    if matches {
      ReadNumberExact(d1, 8);
      ReadTextExact(d2, PLAINTEXT_LIMIT);
      ReadTextExact(d3, 128);
      ReadTextExact(d4, 128);
      ReadTextExact(d5, 128);
      ReadOptionalExact(d6, 64);
      ReadOptionalExact(d7, 55);
      return Some(number);
    }
    forall g, rest ensures !HeadIs(scope, start, g, rest) {
      if HeadIs(scope, start, g, rest) { HeadReads(scope, start, g, rest); }
    }
    return None;
  }

  /** A right header is read back item by item. */
  lemma HeadReads(scope: StorageScope, data: seq<byte>, g: nat, rest: seq<byte>)
    requires scope.Valid() && HeadIs(scope, data, g, rest)
    ensures data[..4] == MAGIC && ReadNumber(data[4..], 8).Some?
    ensures var (n, d2) := ReadNumber(data[4..], 8).value;
            n == g && ReadText(d2, PLAINTEXT_LIMIT).Some? && var (i, d3) := ReadText(d2, PLAINTEXT_LIMIT).value;
            i == scope.issuer && ReadText(d3, 128).Some? && var (a, d4) := ReadText(d3, 128).value;
            a == scope.applicationID && ReadText(d4, 128).Some? && var (e, d5) := ReadText(d4, 128).value;
            e == scope.environmentID && ReadText(d5, 128).Some? && var (s, d6) := ReadText(d5, 128).value;
            s == scope.installationID && ReadOptional(d6, 64).Some? && var (f, d7) := ReadOptional(d6, 64).value;
            f == scope.fingerprint && ReadOptional(d7, 55) == Some((scope.provider, rest))
  {
    var d7 := OptionalField(scope.provider) + rest;
    var d6 := OptionalField(scope.fingerprint) + d7;
    var d5 := Field(scope.installationID) + d6;
    var d4 := Field(scope.environmentID) + d5;
    var d3 := Field(scope.applicationID) + d4;
    var d2 := Field(scope.issuer) + d3;
    Widths();
    BindingIsUtf8(scope.fingerprint, scope.provider);
    TokenIsUtf8(scope.applicationID);
    TokenIsUtf8(scope.environmentID);
    TokenIsUtf8(scope.installationID);
    assert data[4..] == BigEndian(g, 8) + d2;
    ReadNumberInverse(g, 8, d2);
    ReadTextInverse(scope.issuer, PLAINTEXT_LIMIT, d3);
    ReadTextInverse(scope.applicationID, 128, d4);
    ReadTextInverse(scope.environmentID, 128, d5);
    ReadTextInverse(scope.installationID, 128, d6);
    ReadOptionalInverse(scope.fingerprint, 64, d7);
    ReadOptionalInverse(scope.provider, 55, rest);
  }

  /** The credential a record of this scope carries, given what its own part holds. */
  function CredentialOf(scope: StorageScope, activation: Text, licence: Text, bearer: Text,
      expiry: int): StoredCredential {
    StoredCredential(scope.applicationID, scope.environmentID, activation, licence, scope.installationID, bearer,
        expiry,
      scope.fingerprint, scope.provider)
  }

  method DecodeCredential(scope: StorageScope, d: StorageDecoder) returns (result: Option<Option<StoredCredential>>)
    requires !d.bad
    modifies d
    ensures result.Some? ==> scope.Accepts(result.value) && old(d.data) == CredentialPart(result.value)
    ensures result.None? ==> forall c :: scope.Accepts(c) ==> old(d.data) != CredentialPart(c)
  {
    hide Field, BigEndian, ReadText, ReadNumber;
    ghost var d0 := d.data;
    forall c | scope.Accepts(c) && d0 == CredentialPart(c) ensures PartReads(c, d0) { CredentialReads(scope, c, d0); }
    var credential: Option<StoredCredential> := None;
    var present := d.Present();
    ghost var d1 := d.data;
    if present {
      var activation := d.TextField(128);
      ghost var d2 := d.data;
      var licence := d.TextField(128);
      ghost var d3 := d.data;
      var bearer := d.TextField(43);
      ghost var d4 := d.data;
      var expiry := d.Number();
      if expiry > MAX_INT64 { return None; }
      credential := Some(CredentialOf(scope, activation, licence, bearer, expiry));
      if !d.bad && d.data == [] {
        ReadTextExact(d1, 128);
        ReadTextExact(d2, 128);
        ReadTextExact(d3, 43);
        ReadNumberExact(d4, 8);
        PartWritten(credential.value, d0, d1, d2, d3, d4);
      }
    } else if !d.bad && d.data == [] {
      assert d0 == [0] + d1;
    }
    if d.bad || d.data != [] || !scope.Accepts(credential) { return None; }
    return Some(credential);
  }

  lemma PartWritten(c: StoredCredential, d0: seq<byte>, d1: seq<byte>, d2: seq<byte>, d3: seq<byte>, d4: seq<byte>)
    requires c.credentialExpiresAt >= 0 && d0 != [] && d0[0] == 1 && d0[1..] == d1
    requires d1 == Field(c.activationID) + d2 && d2 == Field(c.licenceID) + d3 && d3 == Field(c.credential) + d4
    requires d4 == BigEndian(c.credentialExpiresAt, 8) + []
    ensures d0 == CredentialPart(Some(c))
  {
    hide Field, BigEndian;
    assert d0 == [1] + d1;
    assert BigEndian(c.credentialExpiresAt, 8) + [] == BigEndian(c.credentialExpiresAt, 8);
  }

  /** A credential part is read back item by item, to its end. */
  ghost predicate PartReads(c: Option<StoredCredential>, data: seq<byte>) {
    match ReadFlag(data)
    case None => false
    case Some((false, rest)) => c.None? && rest == []
    case Some((true, d1)) =>
      c.Some? && ReadText(d1, 128).Some? && var (a, d2) := ReadText(d1, 128).value;
      a == c.value.activationID && ReadText(d2, 128).Some? && var (l, d3) := ReadText(d2, 128).value;
      l == c.value.licenceID && ReadText(d3, 43).Some? && var (b, d4) := ReadText(d3, 43).value;
      b == c.value.credential && ReadNumber(d4, 8).Some? && var (n, rest) := ReadNumber(d4, 8).value;
      n == c.value.credentialExpiresAt && rest == []
  }

  lemma CredentialReads(scope: StorageScope, c: Option<StoredCredential>, data: seq<byte>)
    requires scope.Accepts(c) && data == CredentialPart(c)
    ensures PartReads(c, data)
  {
    if c.Some? {
      var d4 := BigEndian(c.value.credentialExpiresAt, 8);
      var d3 := Field(c.value.credential) + d4;
      var d2 := Field(c.value.licenceID) + d3;
      TokenIsUtf8(c.value.activationID);
      TokenIsUtf8(c.value.licenceID);
      TokenIsUtf8(c.value.credential);
      assert data[1..] == Field(c.value.activationID) + d2;
      ReadTextInverse(c.value.activationID, 128, d2);
      ReadTextInverse(c.value.licenceID, 128, d3);
      ReadTextInverse(c.value.credential, 43, d4);
      Widths();
      ReadNumberInverse(c.value.credentialExpiresAt, 8, []);
      assert d4 + [] == d4;
    }
  }

  /** Decoding answers a generation and credential exactly when the bytes are their record. */
  method DecodeStorageRecord(scope: StorageScope, data: seq<byte>)
    returns (result: Option<(nat, Option<StoredCredential>)>)
    requires scope.Valid()
    ensures result.Some? ==> Represents(scope, result.value.0, result.value.1, data)
    ensures result.None? ==> forall g, c :: !Represents(scope, g, c, data)
  {
    if |data| > PLAINTEXT_LIMIT { return None; }
    var d := new StorageDecoder(data);
    var generation := DecodeHead(scope, d);
    if generation.None? {
      forall g, c ensures !Represents(scope, g, c, data) {
        if Represents(scope, g, c, data) { HeadOfLayout(scope, g, c, data); }
      }
      return None;
    }
    ghost var rest := d.data;
    var credential := DecodeCredential(scope, d);
    if credential.None? {
      forall g, c ensures !Represents(scope, g, c, data) {
        if Represents(scope, g, c, data) {
          HeadOfLayout(scope, g, c, data);
          HeadUnique(scope, data, generation.value, rest, g, CredentialPart(c));
        }
      }
      return None;
    }
    return Some((generation.value, credential.value));
  }

  /** No bytes are the record of two different contents. */
  lemma RepresentsOne(scope: StorageScope, g: nat, c: Option<StoredCredential>, h: nat, e: Option<StoredCredential>,
      data: seq<byte>)
    requires Represents(scope, g, c, data) && Represents(scope, h, e, data)
    ensures g == h && c == e
  {
    HeadOfLayout(scope, g, c, data);
    HeadOfLayout(scope, h, e, data);
    HeadUnique(scope, data, g, CredentialPart(c), h, CredentialPart(e));
    CredentialReads(scope, c, CredentialPart(c));
    CredentialReads(scope, e, CredentialPart(e));
  }

  /** What DecodeStorageRecord answers for these bytes. */
  ghost predicate Decodes(scope: StorageScope, data: seq<byte>, result: Option<(nat, Option<StoredCredential>)>) {
    && (result.Some? ==> Represents(scope, result.value.0, result.value.1, data))
    && (result.None? ==> forall g, c :: !Represents(scope, g, c, data))
  }

  /** What EncodeStorageRecord answers for this content. */
  ghost predicate Encodes(scope: StorageScope, g: nat, c: Option<StoredCredential>, result: Option<seq<byte>>) {
    && (result.Some? ==> Represents(scope, g, c, result.value))
    && (result.None? ==> forall data :: !Represents(scope, g, c, data))
  }

  /** The two are inverse on everything either accepts: decoding an encoded record gives its content back, and bytes that
      decode are the very bytes their content encodes to. */
  lemma RoundTrips(scope: StorageScope, g: nat, c: Option<StoredCredential>, encoded: Option<seq<byte>>,
      data: seq<byte>,
                   decoded: Option<(nat, Option<StoredCredential>)>)
    requires Encodes(scope, g, c, encoded) && Decodes(scope, data, decoded)
    ensures encoded == Some(data) ==> decoded == Some((g, c))
    ensures decoded == Some((g, c)) ==> encoded == Some(data)
  {
    if encoded == Some(data) {
      assert Represents(scope, g, c, data);
      assert decoded.Some?;
      RepresentsOne(scope, g, c, decoded.value.0, decoded.value.1, data);
    }
    if decoded == Some((g, c)) {
      assert Represents(scope, g, c, data);
      assert encoded.Some?;
    }
    hide Represents;
  }

  /** The parts of a credential that are opaque, of 1 to 128 token characters, or a bearer secret of 43, and an expiry. */
  predicate WellFormedCredential(c: StoredCredential) {
    && 1 <= |c.activationID| <= 128 && AsciiToken(c.activationID) && 1 <= |c.licenceID| <= 128
    && AsciiToken(c.licenceID) && |c.credential| == 43 && AsciiToken(c.credential)
    && 1 <= c.credentialExpiresAt <= MAX_INT64
  }

  /** Whatever a client is issued for its own scope can be stored: with an issuer of at most 31907 bytes the record always
      fits, whatever the other parts are, and no longer issuer leaves room for all of them. */
  lemma IssuedIsStorable(scope: StorageScope, generation: nat, c: StoredCredential)
    requires scope.Valid() && |scope.issuer| <= 31907 && generation <= MAX_INT64 && WellFormedCredential(c)
    requires c.applicationID == scope.applicationID && c.environmentID == scope.environmentID
    requires c.installationID == scope.installationID
    requires c.fingerprint == scope.fingerprint && c.fingerprintProvider == scope.provider
    ensures Represents(scope, generation, Some(c), Layout(scope, generation, Some(c)))
    ensures Represents(scope, generation, None, Layout(scope, generation, None))
    ensures |scope.applicationID| == |scope.environmentID| == |scope.installationID| == |c.activationID| == 128
            && |c.licenceID| == 128 && scope.provider.Some? && |scope.provider.value| == 55 ==>
              |Layout(scope, generation, Some(c))| == 861 + |scope.issuer|
  {
    hide BigEndian, AsciiToken, Utf8.WellFormed;
    BindingIsUtf8(scope.fingerprint, scope.provider);
    hide ValidBinding;
  }
}
