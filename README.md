# GS1 codec record builders

This project models the record-building layer of the GS1 codec in
`tools/gs1_codec.py`. The layer turns a GS1 Application Identifier (AI) map,
from unsigned AI codes to strings, into the dictionaries that are later
CBOR-encoded and published as transaction metadata under label
163532014. It has five parts:

- **AI key rendering.** `ai_key` writes a code below 100 as two digits and a
  larger code as plain decimal. `ai_map_to_json_keys` applies that rendering
  to every key of a map.
- **Publishing envelope and metadata records.** The envelope has fixed
  `standard`, `schema_version` and `gs1_release` fields and a payload. A
  metadata record is a single-entry dictionary keyed by the label. The
  JSON-style record writes the label as decimal text. The on-chain record
  writes it as an integer. Both records share one envelope, built by
  `make_envelope`, whose payload goes through `ai_map_to_json_keys`
  (tools/gs1_codec.py:59, 69, 79). So the on-chain record's payload keys are
  strings such as "01", not unsigned integers, despite the docstring at
  tools/gs1_codec.py:40-41. The model follows the code (`MakeEnvelopeRoundTrip`).
- **Anchor payload and anchor records.** These are the same envelope around
  a hash, a URI, a content type and a hash algorithm. The last two have
  defaults.
- **Synthetic off-chain trace record.** It has an identity block and
  `num_events` generated events. Each event is built from its index alone.
- **`to_hex` and `measure`.** `to_hex` gives lowercase hex. `measure` gives
  an encoding and its length.

Layout:

- `decimal.dfy`: `str(n)`, `zfill` and the `:02d` format for non-negative
  integers, and the parse that inverts them.
- `values.dfy`: dictionaries, lists and strings as one `Value` datatype.
  Keys are integers (`IKey`) or strings (`SKey`).
- `gs1_codec.dfy`: AI keys, the envelope, the metadata records, the anchor
  payload and records, and `measure`.
- `trace_record.dfy`: the trace record. The event loop is a method, proved
  against a function of its inputs.
- `hex.dfy`: `to_hex` and its inverse.

Every builder except the trace record has a partner reader that recovers
the builder's arguments. The round-trip lemmas show that a record holds
exactly what it was built from, with the constant fields checked on the way.
The trace record's reader recovers the base AI map and the event list. It
does not recover `num_events`: the list has `max(num_events, 0)` entries
(`TraceRecordOfContents`), so every negative count gives the same record
as zero.

## Model

| member | source | states |
|---|---|---|
| Decimal.NatToDecimal | tools/gs1_codec.py:46 | `str(n)` for a non-negative `n`: at least one character, with no leading '0' except for zero itself |
| Decimal.ZFill | tools/gs1_codec.py:46 | `s.zfill(width)`: length `max(\|s\|, width)`, with `s` kept as the suffix and only '0' before it |
| Decimal.Pad2 | tools/gs1_codec.py:164 | the `:02d` format: at least two characters, exactly two below 100 |
| Decimal.NatToDecimalDigits | tools/gs1_codec.py:46 | `str(k)` of a non-negative code is a non-empty run of digits whose value is `k`. It starts with '0' only for zero, has one digit exactly below 10 and at most two below 100 |
| Decimal.LeadingZerosValue | tools/gs1_codec.py:46 | left-padding with '0' (`zfill`) does not change a digit string's value |
| Decimal.Pad2Digits | tools/gs1_codec.py:164 | the `:02d` rendering of `n` is digits of value `n`, two characters exactly when `n < 100`, and the same string as `str(n).zfill(2)` |
| Gs1Codec.LabelTextIsDecimal | tools/gs1_codec.py:12 | the JSON-style label text "163532014" is `str(RECOMMENDED_METADATA_LABEL)` |
| Gs1Codec.AiKey | tools/gs1_codec.py:44-46 | the rendered key parses back to the AI code it came from |
| Gs1Codec.AiKeyShape | tools/gs1_codec.py:44-46 | a key is all digits, two characters exactly when the code is below 100, '0' and the digit below 10, plain decimal from 10 on |
| Gs1Codec.AiKeyPaddedExamples | tools/gs1_codec.py:44-46 | codes 0, 1 and 99 render as "00", "01" and "99" |
| Gs1Codec.AiKeyPlainExamples | tools/gs1_codec.py:44-46 | codes 100 and 8004 render as "100" and "8004" |
| Gs1Codec.AiKeyInjective | tools/gs1_codec.py:44-46 | two codes with the same key are the same code |
| Gs1Codec.AiMapToJsonKeys | tools/gs1_codec.py:38-48 | every input code appears under its rendered key with its value unchanged, and every output key is the rendering of an input code |
| Gs1Codec.AiMapToJsonKeysSize | tools/gs1_codec.py:44-48 | the JSON map has exactly one entry per input AI |
| Gs1Codec.JsonKeysToAiMap | tools/gs1_codec.py:44-48 | the inverse reading: a code is present exactly when its rendered key is, with that key's value |
| Gs1Codec.AiMapJsonKeysRoundTrip | tools/gs1_codec.py:38-48 | reading the JSON map back gives exactly the original AI map: no entry lost, changed or added |
| Gs1Codec.EnvelopeOf | tools/gs1_codec.py:55-60 | an envelope has exactly the four fields `standard`, `schema_version`, `gs1_release`, `payload` |
| Gs1Codec.EnvelopeRoundTrip | tools/gs1_codec.py:55-60 | an envelope holds "gs1", "1.0.0" and "24.0" in its constant fields and gives back its payload unchanged |
| Gs1Codec.MakeEnvelope | tools/gs1_codec.py:51-60 | `make_envelope` has exactly the four envelope fields |
| Gs1Codec.MakeEnvelopeRoundTrip | tools/gs1_codec.py:51-60 | the envelope holds the constants, its payload is `ai_map_to_json_keys` of the input, and that payload reads back as the input AI map |
| Gs1Codec.LabelledRecord | tools/gs1_codec.py:68-70 | a labelled record is a single-entry map |
| Gs1Codec.MakeMetadataRecordJson | tools/gs1_codec.py:63-70 | the JSON-style record is the single entry "163532014" mapped to `make_envelope` of the input |
| Gs1Codec.MakeMetadataRecordCbor | tools/gs1_codec.py:73-80 | the on-chain record is the single entry 163532014, an integer key, mapped to `make_envelope` of the input |
| Gs1Codec.LabelledRecordRoundTrip | tools/gs1_codec.py:68-80 | either label form gives back the envelope it wraps |
| Gs1Codec.RecordEnvelopeRoundTrip | tools/gs1_codec.py:63-80 | a record whose envelope is `make_envelope(m)` carries `m` |
| Gs1Codec.MetadataRecordRoundTrip | tools/gs1_codec.py:63-80 | both metadata records read back as exactly the input AI map |
| Gs1Codec.MetadataRecordsDifferOnlyInLabel | tools/gs1_codec.py:63-80 | the two records differ, and replacing the on-chain integer label by its decimal text turns the on-chain record into the JSON-style one |
| Gs1Codec.MakeAnchorPayload | tools/gs1_codec.py:83-99 | the anchor payload has exactly the five anchor fields, and `type` is "anchor" |
| Gs1Codec.AnchorPayloadRoundTrip | tools/gs1_codec.py:83-99 | `hash_alg`, `hash_hex`, `uri` and `content_type` are passed through unchanged |
| Gs1Codec.AnchorPayloadDefaults | tools/gs1_codec.py:86-88 | omitted arguments give content type "application/cbor" and hash algorithm "blake2b-256" |
| Gs1Codec.MakeAnchorMetadataRecordJson | tools/gs1_codec.py:102-120 | the JSON-style anchor record is a single entry keyed by "163532014" |
| Gs1Codec.MakeAnchorMetadataRecordCbor | tools/gs1_codec.py:123-141 | the on-chain anchor record is a single entry keyed by the integer 163532014 |
| Gs1Codec.AnchorRecordRoundTrip | tools/gs1_codec.py:102-141 | both anchor records read back as the four anchor arguments, through the constant-field envelope. The two records differ, and relabelling the on-chain one with the label's text gives the JSON-style one |
| Gs1Codec.Measure | tools/gs1_codec.py:33-35 | `measure` returns the encoder's bytes and their length |
| Hex.ToHex | tools/gs1_codec.py:29-30 | two characters per byte, all lowercase hex digits |
| Hex.HexRoundTrip | tools/gs1_codec.py:29-30 | parsing the hex text gives back the bytes |
| Hex.ToHexInjective | tools/gs1_codec.py:29-30 | distinct byte strings have distinct hex renderings |
| Values.StringMap | tools/gs1_codec.py:48 | a `Dict[str, str]` as a value has the same keys, as string keys, and the same values |
| Values.StringMapRoundTrip | tools/gs1_codec.py:48 | reading such a value back gives the dictionary |
| TraceRecord.MakeOffchainTraceRecord | tools/gs1_codec.py:143-185 | the loop builds exactly `TraceRecordOf(base, num_events)`: the constant header, the identity block and the events appended one per index |
| TraceRecord.EventType | tools/gs1_codec.py:162 | the event type is one of "pack", "ship", "receive", "store", "return" |
| TraceRecord.Timestamp | tools/gs1_codec.py:164 | the timestamp has 20 characters |
| TraceRecord.Actor | tools/gs1_codec.py:166 | the actor is "org:" and one digit whose value is `i % 7 + 1` |
| TraceRecord.Location | tools/gs1_codec.py:167 | the location is "gln:" and a decimal whose value is `9876543210987 + i % 3` |
| TraceRecord.Note | tools/gs1_codec.py:175 | the note is "event-" and a decimal whose value is `i + 1` |
| TraceRecord.Event | tools/gs1_codec.py:169-177 | event `i` has exactly the five fields `ts`, `type`, `actor`, `loc`, `note` |
| TraceRecord.EventCount | tools/gs1_codec.py:160 | `range(num_events)` iterates `max(num_events, 0)` times |
| TraceRecord.Appended | tools/gs1_codec.py:157-177 | the list a `for` loop over `range(count)` builds has one entry per iteration |
| TraceRecord.Events | tools/gs1_codec.py:157-177 | the event list has `max(num_events, 0)` entries |
| TraceRecord.Identity | tools/gs1_codec.py:155 | the identity block has one entry per AI of the base map |
| TraceRecord.TraceRecordOf | tools/gs1_codec.py:179-185 | the returned record has exactly the five fields, and its `events` list has `max(num_events, 0)` entries |
| TraceRecord.AppendedGrows | tools/gs1_codec.py:160-177 | one more loop iteration appends exactly `f(n)` at the end |
| TraceRecord.AppendedAt | tools/gs1_codec.py:160-177 | `range(count)` appends one entry per iteration, none for a negative count, and entry `i` is `f(i)` |
| TraceRecord.AppendedPrefix | tools/gs1_codec.py:157-177 | the list after fewer iterations is a prefix of the list after more |
| TraceRecord.EventsGrow | tools/gs1_codec.py:157-177 | the events for `n + 1` are the events for `n` with one event appended |
| TraceRecord.TraceRecordOfContents | tools/gs1_codec.py:143-185 | the record carries the base AI map and `max(num_events, 0)` events, event `i` at position `i` |
| TraceRecord.TraceRecordKeys | tools/gs1_codec.py:179-185 | the record has exactly the five fields `standard`, `schema_version`, `gs1_release`, `identity`, `events` |
| TraceRecord.TraceRecordHeader | tools/gs1_codec.py:179-185 | the header holds "gs1-trace-record", "1.0.0" and "24.0", and the identity and events given |
| TraceRecord.TraceRecordsDifferOnlyInEvents | tools/gs1_codec.py:179-185 | records with the same identity differ at most in the events field |
| TraceRecord.IdentityRoundTrip | tools/gs1_codec.py:155 | the identity block is `ai_map_to_json_keys(base)` and reads back as exactly the base AI map |
| TraceRecord.TraceRecordRoundTrip | tools/gs1_codec.py:155-185 | a trace record reads back as the base AI map and the event list it was built from |
| TraceRecord.TimestampFields | tools/gs1_codec.py:164 | the timestamp has 20 characters. Its day, hour and minute fields are two digits reading `i % 28 + 1`, `i % 24` and `i % 60` |
| TraceRecord.EventTypeCycle | tools/gs1_codec.py:162 | two events have the same type exactly when their indices agree mod 5 |
| TraceRecord.PrefixedDecimalEq | tools/gs1_codec.py:166-175 | a fixed prefix followed by `str(n)` determines `n` |
| TraceRecord.ActorCycle | tools/gs1_codec.py:166 | two events have the same actor exactly when their indices agree mod 7 |
| TraceRecord.LocationCycle | tools/gs1_codec.py:167 | two events have the same location exactly when their indices agree mod 3 |
| TraceRecord.EventNote | tools/gs1_codec.py:175 | the `note` field of event `i` is "event-" followed by `i + 1` |
| TraceRecord.EventsDistinct | tools/gs1_codec.py:169-177 | no two events of a trace are equal |
| TraceRecord.FirstTimestamp | tools/gs1_codec.py:164 | event 0's timestamp is "2025-01-01T00:00:00Z" |
| TraceRecord.FirstActorAndNote | tools/gs1_codec.py:166-175 | event 0's actor is "org:1" and its note is "event-1" |
| TraceRecord.GlnBaseDecimal | tools/gs1_codec.py:167 | the base GLN 9876543210987 renders as its thirteen digits |
| TraceRecord.FirstLocation | tools/gs1_codec.py:167 | event 0's location is "gln:9876543210987" |
| TraceRecord.FirstEvent | tools/gs1_codec.py:160-177 | event 0 is `{ts: "2025-01-01T00:00:00Z", type: "pack", actor: "org:1", loc: "gln:9876543210987", note: "event-1"}` |

## Left out

- `encode_canonical_cbor`, `require_cbor2` and the `cbor2` import (tools/gs1_codec.py:7-26): the canonical CBOR encoder is a library call. `Measure` takes the encoder as a function parameter, and no encoded lengths are claimed. The missing-dependency `RuntimeError` is not modelled either.
- Gs1Codec.Measure: states only that the length is the length of the encoder's output. A claim such as "the anchor record encodes smaller than the trace record" depends on the encoder and is not stated.
- Hex.ToHex: models `binascii.hexlify` as two lowercase hex digits per byte, high nibble first, not as the library. `FromHex` is the model's own inverse, and it accepts lowercase only.
- `tools/size_check.py`: the size report only calls the builders and prints sizes and hex to standard output. Its sample AI maps are not part of this model.
- `tests/conftest.py`: it only adjusts the import path.
- Negative AI codes: codes are `nat`. The code never checks the sign, so `str(k).zfill(2)` would give "-5" for -5. The code has no error path for negative codes, and neither has the model.
- Dictionary insertion order: dictionaries are `map`s. Key order is the canonical encoder's concern.
- Python's dynamic typing: payload values are strings. The builders' arguments are typed as the source annotates them.
- Gs1Codec.AnchorRecordRoundTrip: an anchor record cannot depend on a trace record or an event count because it takes no such argument. That independence holds by construction, not by a lemma.
