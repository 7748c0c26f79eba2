/**
 * The record builders of the GS1 codec: AI-key rendering, the publishing
 * envelope, the metadata records (JSON-style and on-chain), the anchor
 * payload and anchor records, and the size measurement of an encoding.
 *
 * Each builder comes with a reader that recovers its arguments from the
 * record it builds; the round-trip lemmas say that nothing is lost or added.
 */
module Gs1Codec {
  import opened Decimal
  import opened Values
  import opened Hex

  const RecommendedMetadataLabel: nat := 163532014

  const Standard: string := "gs1"
  const SchemaVersion: string := "1.0.0"
  const Gs1Release: string := "24.0"

  const DefaultContentType: string := "application/cbor"
  const DefaultHashAlg: string := "blake2b-256"

  /** The label as the JSON-style record writes it. */
  const LabelText: string := "163532014"

  /** `LabelText` is `str(RECOMMENDED_METADATA_LABEL)`. */
  lemma LabelTextIsDecimal()
    ensures NatToDecimal(RecommendedMetadataLabel) == LabelText
  {
    assert NatToDecimal(16) == "16";
    assert NatToDecimal(163) == "163";
    assert NatToDecimal(1635) == "1635";
    assert NatToDecimal(16353) == "16353";
    assert NatToDecimal(163532) == "163532";
    assert NatToDecimal(1635320) == "1635320";
    assert NatToDecimal(16353201) == "16353201";
  }

  // ---------------------------------------------------------------------------
  // AI keys

  /**
   * `ai_key`: the decimal form of the AI code, left-padded with '0' to two
   * characters. Parsing the key gives back the code, so no two codes share
   * a key.
   */
  function AiKey(k: nat): (r: string)
    ensures DecimalValue(r) == k
  {
    var d := NatToDecimal(k);
    NatToDecimalDigits(k);
    LeadingZerosValue(if |d| >= 2 then 0 else 2 - |d|, d);
    assert |d| >= 2 ==> Zeros(0) + d == d;
    if k < 100 then ZFill(d, 2) else d
  }

  /**
   * The shape of a rendered key: digits only; exactly two characters below
   * 100 (a leading '0' below 10); the plain decimal form from 100 on.
   */
  lemma AiKeyShape(k: nat)
    ensures IsDigits(AiKey(k))
    ensures k < 100 <==> |AiKey(k)| == 2
    ensures k < 10 ==> AiKey(k) == ['0', DigitChar(k)]
    ensures 10 <= k ==> AiKey(k) == NatToDecimal(k)
  {
    var d := NatToDecimal(k);
    NatToDecimalDigits(k);
    if k < 10 {
      assert Zeros(1) == ['0'];
      assert d == [DigitChar(k)];
    }
  }

  /** Codes below 100 are left-padded with '0' to two digits. */
  lemma AiKeyPaddedExamples()
    ensures AiKey(0) == "00" && AiKey(1) == "01" && AiKey(99) == "99"
  {
    AiKeyShape(0);
    AiKeyShape(1);
    AiKeyShape(99);
  }

  /** Codes from 100 on are plain decimal. */
  lemma AiKeyPlainExamples()
    ensures AiKey(100) == "100" && AiKey(8004) == "8004"
  {
    AiKeyShape(100);
    AiKeyShape(8004);
    assert NatToDecimal(80) == "80" && NatToDecimal(800) == "800";
  }

  /** Distinct AI codes render as distinct keys. */
  lemma AiKeyInjective(a: nat, b: nat)
    requires AiKey(a) == AiKey(b)
    ensures a == b
  {
  }

  /** A string is a rendered AI key exactly when it re-renders to itself. */
  predicate IsAiKey(s: string) {
    DecimalValue(s) >= 0 && AiKey(DecimalValue(s) as nat) == s
  }

  /** `ai_map_to_json_keys`: every AI code replaced by its rendered key, the value kept. */
  function AiMapToJsonKeys(m: map<nat, string>): (r: map<string, string>)
    ensures forall k {:trigger k in m} :: k in m ==> AiKey(k) in r && r[AiKey(k)] == m[k]
    ensures forall s {:trigger s in r} :: s in r ==> exists k :: k in m && s == AiKey(k)
  {
    map k | k in m :: AiKey(k) := m[k]
  }

  /** Exactly one JSON entry per input AI. */
  lemma AiMapToJsonKeysSize(m: map<nat, string>)
    ensures |AiMapToJsonKeys(m)| == |m|
  {
    var r := AiMapToJsonKeys(m);
    BijectionSize(m.Keys, r.Keys, AiKey);
  }

  /** Reads a string-keyed AI map back to integer codes; keys that are not rendered AI keys are dropped. */
  function JsonKeysToAiMap(p: map<string, string>): (m: map<nat, string>)
    ensures forall k {:trigger k in m} {:trigger AiKey(k) in p} :: k in m <==> AiKey(k) in p
    ensures forall k {:trigger k in m} :: k in m ==> m[k] == p[AiKey(k)]
  {
    map s | s in p && IsAiKey(s) :: DecimalValue(s) as nat := p[s]
  }

  lemma AiMapJsonKeysRoundTrip(m: map<nat, string>)
    ensures JsonKeysToAiMap(AiMapToJsonKeys(m)) == m
  {
    var p := AiMapToJsonKeys(m);
    var back := JsonKeysToAiMap(p);
    forall k | k in back ensures k in m {
      assert AiKey(k) in p;
    }
  }

  // ---------------------------------------------------------------------------
  // Envelope and metadata records

  const EnvelopeKeys: set<Key> :=
    {SKey("standard"), SKey("schema_version"), SKey("gs1_release"), SKey("payload")}

  /** The publishing envelope around a payload, with its three constant fields. */
  function EnvelopeOf(payload: Value): (v: Value)
    ensures v.VMap? && v.entries.Keys == EnvelopeKeys
  {
    VMap(map[
      SKey("standard") := VStr(Standard),
      SKey("schema_version") := VStr(SchemaVersion),
      SKey("gs1_release") := VStr(Gs1Release),
      SKey("payload") := payload])
  }

  /** The payload of an envelope with exactly the expected fields and constants. */
  function ReadEnvelope(v: Value): Option<Value> {
    if && v.VMap?
       && v.entries.Keys == EnvelopeKeys
       && v.entries[SKey("standard")] == VStr(Standard)
       && v.entries[SKey("schema_version")] == VStr(SchemaVersion)
       && v.entries[SKey("gs1_release")] == VStr(Gs1Release)
    then Some(v.entries[SKey("payload")])
    else None
  }

  lemma EnvelopeRoundTrip(payload: Value)
    ensures ReadEnvelope(EnvelopeOf(payload)) == Some(payload)
  {
  }

  /** `make_envelope`: the envelope around the string-keyed AI map. */
  function MakeEnvelope(m: map<nat, string>): (v: Value)
    ensures v.VMap? && v.entries.Keys == EnvelopeKeys
  {
    EnvelopeOf(StringMap(AiMapToJsonKeys(m)))
  }

  /** The AI map held in a string-keyed payload. */
  function ReadAiPayload(payload: Value): Option<map<nat, string>> {
    match AsStringMap(payload)
    case None => None
    case Some(p) => Some(JsonKeysToAiMap(p))
  }

  /** The envelope has the four fields and gives back exactly the AI map it was built from. */
  lemma MakeEnvelopeRoundTrip(m: map<nat, string>)
    ensures ReadEnvelope(MakeEnvelope(m)).Some?
    ensures ReadEnvelope(MakeEnvelope(m)).value == StringMap(AiMapToJsonKeys(m))
    ensures ReadAiPayload(ReadEnvelope(MakeEnvelope(m)).value) == Some(m)
  {
    EnvelopeRoundTrip(StringMap(AiMapToJsonKeys(m)));
    StringMapRoundTrip(AiMapToJsonKeys(m));
    AiMapJsonKeysRoundTrip(m);
  }

  /** A single-entry record wrapping a value under the label. */
  function LabelledRecord(onChain: bool, envelope: Value): (v: Value)
    ensures v.VMap? && |v.entries| == 1
  {
    var key := if onChain then IKey(RecommendedMetadataLabel) else SKey(LabelText);
    VMap(map[key := envelope])
  }

  /** `make_metadata_record_json`: the envelope under the label as a decimal string. */
  function MakeMetadataRecordJson(m: map<nat, string>): (v: Value)
    ensures v.VMap? && v.entries == map[SKey("163532014") := MakeEnvelope(m)]
  {
    LabelledRecord(false, MakeEnvelope(m))
  }

  /** `make_metadata_record_cbor`: the envelope under the label as an unsigned integer. */
  function MakeMetadataRecordCbor(m: map<nat, string>): (v: Value)
    ensures v.VMap? && v.entries == map[IKey(163532014) := MakeEnvelope(m)]
  {
    LabelledRecord(true, MakeEnvelope(m))
  }

  /** The envelope of a single-entry record keyed by the label, in either key form. */
  function ReadRecordEnvelope(v: Value): Option<Value> {
    if !v.VMap? || |v.entries| != 1 then None
    else if IKey(RecommendedMetadataLabel) in v.entries then Some(v.entries[IKey(RecommendedMetadataLabel)])
    else if SKey(LabelText) in v.entries then Some(v.entries[SKey(LabelText)])
    else None
  }

  /** The AI map carried by a metadata record in either representation. */
  function ReadMetadataRecord(v: Value): Option<map<nat, string>> {
    match ReadRecordEnvelope(v)
    case None => None
    case Some(envelope) =>
      match ReadEnvelope(envelope)
      case None => None
      case Some(payload) => ReadAiPayload(payload)
  }

  lemma MetadataRecordRoundTrip(m: map<nat, string>)
    ensures ReadMetadataRecord(MakeMetadataRecordJson(m)) == Some(m)
    ensures ReadMetadataRecord(MakeMetadataRecordCbor(m)) == Some(m)
  {
    var envelope := MakeEnvelope(m);
    LabelledRecordRoundTrip(false, envelope);
    LabelledRecordRoundTrip(true, envelope);
    RecordEnvelopeRoundTrip(MakeMetadataRecordJson(m), m);
    RecordEnvelopeRoundTrip(MakeMetadataRecordCbor(m), m);
  }

  /** Any record whose envelope is the one built from `m` carries `m`. */
  lemma RecordEnvelopeRoundTrip(v: Value, m: map<nat, string>)
    requires ReadRecordEnvelope(v) == Some(MakeEnvelope(m))
    ensures ReadMetadataRecord(v) == Some(m)
  {
    MakeEnvelopeRoundTrip(m);
  }

  lemma LabelledRecordRoundTrip(onChain: bool, envelope: Value)
    ensures ReadRecordEnvelope(LabelledRecord(onChain, envelope)) == Some(envelope)
  {
  }

  /**
   * The two metadata representations are different values that carry the
   * same envelope: turning the on-chain integer label into its decimal
   * text gives the JSON-style record.
   */
  lemma MetadataRecordsDifferOnlyInLabel(m: map<nat, string>)
    ensures MakeMetadataRecordJson(m) != MakeMetadataRecordCbor(m)
    ensures TextLabel(MakeMetadataRecordCbor(m), RecommendedMetadataLabel) == MakeMetadataRecordJson(m)
  {
    LabelTextIsDecimal();
    assert SKey(LabelText) in MakeMetadataRecordJson(m).entries;
  }

  // ---------------------------------------------------------------------------
  // Anchor payload and anchor records

  /** The four caller-supplied fields of an anchor. */
  datatype Anchor = Anchor(hashAlg: string, hashHex: string, uri: string, contentType: string)

  const AnchorKeys: set<Key> :=
    {SKey("type"), SKey("hash_alg"), SKey("hash_hex"), SKey("uri"), SKey("content_type")}

  /** `make_anchor_payload`: the anchor object, with the two defaulted fields. */
  function MakeAnchorPayload(
    nameonly hashHex: string,
    nameonly uri: string,
    nameonly contentType: string := DefaultContentType,
    nameonly hashAlg: string := DefaultHashAlg): (v: Value)
    ensures v.VMap? && v.entries.Keys == AnchorKeys
    ensures v.entries[SKey("type")] == VStr("anchor")
  {
    VMap(map[
      SKey("type") := VStr("anchor"),
      SKey("hash_alg") := VStr(hashAlg),
      SKey("hash_hex") := VStr(hashHex),
      SKey("uri") := VStr(uri),
      SKey("content_type") := VStr(contentType)])
  }

  /** The anchor fields of a value with exactly the anchor keys, `type` "anchor" and string fields. */
  function ReadAnchorPayload(v: Value): Option<Anchor> {
    if && v.VMap?
       && v.entries.Keys == AnchorKeys
       && v.entries[SKey("type")] == VStr("anchor")
       && v.entries[SKey("hash_alg")].VStr?
       && v.entries[SKey("hash_hex")].VStr?
       && v.entries[SKey("uri")].VStr?
       && v.entries[SKey("content_type")].VStr?
    then Some(Anchor(
      v.entries[SKey("hash_alg")].s,
      v.entries[SKey("hash_hex")].s,
      v.entries[SKey("uri")].s,
      v.entries[SKey("content_type")].s))
    else None
  }

  /** Every field is passed through unchanged. */
  lemma AnchorPayloadRoundTrip(hashHex: string, uri: string, contentType: string, hashAlg: string)
    ensures ReadAnchorPayload(MakeAnchorPayload(hashHex := hashHex, uri := uri, contentType := contentType, hashAlg := hashAlg))
            == Some(Anchor(hashAlg, hashHex, uri, contentType))
  {
  }

  /** Omitted fields take the defaults "application/cbor" and "blake2b-256". */
  lemma AnchorPayloadDefaults(hashHex: string, uri: string)
    ensures ReadAnchorPayload(MakeAnchorPayload(hashHex := hashHex, uri := uri))
            == Some(Anchor("blake2b-256", hashHex, uri, "application/cbor"))
  {
  }

  /** `make_anchor_metadata_record_json`: the anchor envelope under the label as a decimal string. */
  function MakeAnchorMetadataRecordJson(
    nameonly hashHex: string,
    nameonly uri: string,
    nameonly contentType: string := DefaultContentType,
    nameonly hashAlg: string := DefaultHashAlg): (v: Value)
    ensures v.VMap? && |v.entries| == 1 && SKey("163532014") in v.entries
  {
    LabelledRecord(false, EnvelopeOf(MakeAnchorPayload(
      hashHex := hashHex, uri := uri, contentType := contentType, hashAlg := hashAlg)))
  }

  /** `make_anchor_metadata_record_cbor`: the anchor envelope under the label as an unsigned integer. */
  function MakeAnchorMetadataRecordCbor(
    nameonly hashHex: string,
    nameonly uri: string,
    nameonly contentType: string := DefaultContentType,
    nameonly hashAlg: string := DefaultHashAlg): (v: Value)
    ensures v.VMap? && |v.entries| == 1 && IKey(163532014) in v.entries
  {
    LabelledRecord(true, EnvelopeOf(MakeAnchorPayload(
      hashHex := hashHex, uri := uri, contentType := contentType, hashAlg := hashAlg)))
  }

  /** The anchor carried by an anchor record in either representation. */
  function ReadAnchorRecord(v: Value): Option<Anchor> {
    match ReadRecordEnvelope(v)
    case None => None
    case Some(envelope) =>
      match ReadEnvelope(envelope)
      case None => None
      case Some(payload) => ReadAnchorPayload(payload)
  }

  /**
   * Both anchor records wrap the constant-field envelope around the anchor
   * payload of their four arguments, and differ only in the label's key type.
   */
  lemma AnchorRecordRoundTrip(hashHex: string, uri: string, contentType: string, hashAlg: string)
    ensures ReadAnchorRecord(MakeAnchorMetadataRecordJson(hashHex := hashHex, uri := uri, contentType := contentType, hashAlg := hashAlg))
            == Some(Anchor(hashAlg, hashHex, uri, contentType))
    ensures ReadAnchorRecord(MakeAnchorMetadataRecordCbor(hashHex := hashHex, uri := uri, contentType := contentType, hashAlg := hashAlg))
            == Some(Anchor(hashAlg, hashHex, uri, contentType))
    ensures MakeAnchorMetadataRecordJson(hashHex := hashHex, uri := uri, contentType := contentType, hashAlg := hashAlg)
            != MakeAnchorMetadataRecordCbor(hashHex := hashHex, uri := uri, contentType := contentType, hashAlg := hashAlg)
    ensures TextLabel(MakeAnchorMetadataRecordCbor(hashHex := hashHex, uri := uri, contentType := contentType, hashAlg := hashAlg), RecommendedMetadataLabel)
            == MakeAnchorMetadataRecordJson(hashHex := hashHex, uri := uri, contentType := contentType, hashAlg := hashAlg)
  {
    var payload := MakeAnchorPayload(hashHex := hashHex, uri := uri, contentType := contentType, hashAlg := hashAlg);
    EnvelopeRoundTrip(payload);
    LabelledRecordRoundTrip(false, EnvelopeOf(payload));
    LabelledRecordRoundTrip(true, EnvelopeOf(payload));
    LabelTextIsDecimal();
  }

  // ---------------------------------------------------------------------------
  // Measurement

  /**
   * `measure`: the canonical encoding of a value and its length. The encoder
   * is a parameter: the CBOR library is not part of this model.
   */
  function Measure(encode: Value -> seq<byte>, v: Value): (r: (nat, seq<byte>))
    ensures r.0 == |r.1| && r.1 == encode(v)
  {
    var data := encode(v);
    (|data|, data)
  }
}
