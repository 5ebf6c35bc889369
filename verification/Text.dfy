/** Go strings as byte sequences, and the recognisers of sdk/go/transport.go and sdk/go/device.go. */
module Text {
  import opened Common
  import Utf8

  type Text = seq<byte>

  predicate TokenByte(c: byte) {
    97 <= c <= 122 || 65 <= c <= 90 || 48 <= c <= 57 || c == 95 || c == 45
  }

  predicate AsciiToken(value: Text) {
    value != [] && forall k :: 0 <= k < |value| ==> TokenByte(value[k])
  }

  predicate Opaque(value: Text) { |value| <= 128 && AsciiToken(value) }

  predicate Bearer(value: Text) { |value| == 43 && AsciiToken(value) }

  predicate LowerHex(value: Text, length: nat) {
    |value| == length && forall k :: 0 <= k < |value| ==> 48 <= value[k] <= 57 || 97 <= value[k] <= 102
  }

  /** "machine_v1" */
  const MACHINE_V1: Text := [109, 97, 99, 104, 105, 110, 101, 95, 118, 49]

  /** "custom:" */
  const CUSTOM: Text := [99, 117, 115, 116, 111, 109, 58]

  predicate ProviderByte(c: byte) { 97 <= c <= 122 || 48 <= c <= 57 || c == 95 || c == 45 || c == 46 }

  predicate ValidProvider(value: Text) {
    || value == MACHINE_V1
    || (CUSTOM <= value && 7 < |value| <= 55 && forall k :: 7 <= k < |value| ==> ProviderByte(value[k]))
  }

  /** A fingerprint and its provider are both given or both absent. */
  predicate ValidBinding(fingerprint: Option<Text>, provider: Option<Text>) {
    && (fingerprint.None? <==> provider.None?)
    && (fingerprint.Some? ==> LowerHex(fingerprint.value, 64))
    && (provider.Some? ==> ValidProvider(provider.value))
  }

  lemma TokenIsUtf8(value: Text)
    requires AsciiToken(value)
    ensures Utf8.WellFormed(value)
  {
    Utf8.AsciiWellFormed(value);
  }

  lemma BindingIsUtf8(fingerprint: Option<Text>, provider: Option<Text>)
    requires ValidBinding(fingerprint, provider)
    ensures fingerprint.Some? ==> |fingerprint.value| == 64 && Utf8.WellFormed(fingerprint.value)
    ensures provider.Some? ==> |provider.value| <= 55 && Utf8.WellFormed(provider.value)
  {
    if fingerprint.Some? {
      Utf8.AsciiWellFormed(fingerprint.value);
      var value := provider.value;
      forall k | 0 <= k < |value| ensures value[k] < 0x80 {
        if value != MACHINE_V1 && k < 7 { assert value[k] == CUSTOM[k]; }
      }
      Utf8.AsciiWellFormed(value);
    }
  }
}
