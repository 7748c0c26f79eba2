/**
 * `make_offchain_trace_record`: a synthetic off-chain trace record whose
 * event list is generated, deterministically, from the event index alone.
 */
module TraceRecord {
  import opened Decimal
  import opened Values
  import opened Gs1Codec

  const TraceStandard: string := "gs1-trace-record"
  const DefaultNumEvents: int := 25

  /** The event types, in rotation order. */
  const EventTypes: seq<string> := ["pack", "ship", "receive", "store", "return"]

  // ---------------------------------------------------------------------------
  // The fields of event i

  function EventType(i: nat): (r: string)
    ensures r in EventTypes
  {
    EventTypes[i % 5]
  }

  /**
   * A UTC time in January 2025: day `i % 28 + 1`, hour `i % 24` and minute
   * `i % 60`, each as two digits, seconds always zero.
   */
  function Timestamp(i: nat): (r: string)
    ensures |r| == 20
  {
    "2025-01-" + Pad2(i % 28 + 1) + "T" + Pad2(i % 24) + ":" + Pad2(i % 60) + ":00Z"
  }

  /** "org:" and a single digit from 1 to 7. */
  function Actor(i: nat): (r: string)
    ensures |r| == 5 && r[..4] == "org:" && DecimalValue(r[4..]) == i % 7 + 1
  {
    NatToDecimalDigits(i % 7 + 1);
    "org:" + NatToDecimal(i % 7 + 1)
  }

  /** The GLN the event locations count up from. */
  const GlnBase: nat := 9876543210987

  /** "gln:" and one of three consecutive GLNs from `GlnBase`. */
  function Location(i: nat): (r: string)
    ensures |r| > 4 && r[..4] == "gln:" && DecimalValue(r[4..]) == GlnBase + i % 3
  {
    NatToDecimalDigits(GlnBase + i % 3);
    "gln:" + NatToDecimal(GlnBase + i % 3)
  }

  /** "event-" and the event's number, counting from 1. */
  function Note(i: nat): (r: string)
    ensures |r| > 6 && r[..6] == "event-" && DecimalValue(r[6..]) == i + 1
  {
    NatToDecimalDigits(i + 1);
    "event-" + NatToDecimal(i + 1)
  }

  const EventKeys: set<Key> := {SKey("ts"), SKey("type"), SKey("actor"), SKey("loc"), SKey("note")}

  /** Event `i` of the trace, as one dictionary. */
  function Event(i: nat): (r: Value)
    ensures r.VMap? && r.entries.Keys == EventKeys
  {
    VMap(map[
      SKey("ts") := VStr(Timestamp(i)),
      SKey("type") := VStr(EventType(i)),
      SKey("actor") := VStr(Actor(i)),
      SKey("loc") := VStr(Location(i)),
      SKey("note") := VStr(Note(i))])
  }

  // ---------------------------------------------------------------------------
  // The record

  /** How many times `range(num_events)` iterates: none for a negative count. */
  function EventCount(numEvents: int): (r: nat)
    ensures r >= numEvents && (r == 0 || r == numEvents)
  {
    if numEvents < 0 then 0 else numEvents
  }

  /** The list a `for i in range(count)` loop builds when each iteration appends `f(i)`. */
  function Appended<T>(count: int, f: nat -> T): (r: seq<T>)
    ensures |r| == EventCount(count)
    decreases EventCount(count)
  {
    if count <= 0 then [] else Appended(count - 1, f) + [f(count - 1)]
  }

  /** The event list after `numEvents` iterations. */
  function Events(numEvents: int): (r: seq<Value>)
    ensures |r| == EventCount(numEvents)
  {
    Appended(numEvents, Event)
  }

  /** The identity block: the base AI map with its keys rendered as AI strings. */
  function Identity(baseAiMap: map<nat, string>): (r: Value)
    ensures r.VMap? && |r.entries| == |baseAiMap|
  {
    AiMapToJsonKeysSize(baseAiMap);
    StringMap(AiMapToJsonKeys(baseAiMap))
  }

  /** A trace record with the given identity block and event list. */
  function TraceRecordWith(identity: Value, events: seq<Value>): Value {
    VMap(map[
      SKey("standard") := VStr(TraceStandard),
      SKey("schema_version") := VStr(SchemaVersion),
      SKey("gs1_release") := VStr(Gs1Release),
      SKey("identity") := identity,
      SKey("events") := VList(events)])
  }

  const TraceKeys: set<Key> :=
    {SKey("standard"), SKey("schema_version"), SKey("gs1_release"), SKey("identity"), SKey("events")}

  /**
   * Reads a trace record back into its base AI map and event list: `None`
   * unless the fields are exactly the five above, the header holds the
   * constants, the identity block is an AI map and the events are a list.
   */
  function ReadTraceRecord(v: Value): Option<(map<nat, string>, seq<Value>)> {
    if v.VMap? && v.entries.Keys == TraceKeys
       && v.entries[SKey("standard")] == VStr(TraceStandard)
       && v.entries[SKey("schema_version")] == VStr(SchemaVersion)
       && v.entries[SKey("gs1_release")] == VStr(Gs1Release)
       && v.entries[SKey("events")].VList?
    then
      match ReadAiPayload(v.entries[SKey("identity")])
      case None => None
      case Some(base) => Some((base, v.entries[SKey("events")].items))
    else None
  }

  /** The trace record `make_offchain_trace_record` returns, as a function of its inputs. */
  function TraceRecordOf(baseAiMap: map<nat, string>, numEvents: int): (r: Value)
    ensures r.VMap? && r.entries.Keys == TraceKeys
    ensures r.entries[SKey("events")].VList? && |r.entries[SKey("events")].items| == EventCount(numEvents)
  {
    TraceRecordKeys(Identity(baseAiMap), Events(numEvents));
    TraceRecordWith(Identity(baseAiMap), Events(numEvents))
  }

  /** `make_offchain_trace_record`: builds the event list by appending one event per index. */
  method MakeOffchainTraceRecord(nameonly baseAiMap: map<nat, string>, nameonly numEvents: int := DefaultNumEvents)
    returns (record: Value)
    ensures record == TraceRecordOf(baseAiMap, numEvents)
  {
    var identity := AiMapToJsonKeys(baseAiMap);
    var events: seq<Value> := [];
    var i: nat := 0;
    while i < numEvents
      invariant i <= EventCount(numEvents)
      invariant events == Events(i)
    {
      AppendedGrows(i, Event);
      var evtType := EventTypes[i % 5];
      var ts := Timestamp(i);
      var actor := Actor(i);
      var loc := Location(i);
      events := events + [VMap(map[
        SKey("ts") := VStr(ts),
        SKey("type") := VStr(evtType),
        SKey("actor") := VStr(actor),
        SKey("loc") := VStr(loc),
        SKey("note") := VStr(Note(i))])];
      i := i + 1;
    }
    assert i == EventCount(numEvents);
    record := VMap(map[
      SKey("standard") := VStr(TraceStandard),
      SKey("schema_version") := VStr(SchemaVersion),
      SKey("gs1_release") := VStr(Gs1Release),
      SKey("identity") := StringMap(identity),
      SKey("events") := VList(events)]);
  }

  // ---------------------------------------------------------------------------
  // Properties of the record

  /** One more iteration appends exactly `f(n)` and leaves the earlier entries as they were. */
  lemma AppendedGrows<T>(n: nat, f: nat -> T)
    ensures Appended(n + 1, f) == Appended(n, f) + [f(n)]
  {
  }

  /** There is one entry per iteration, and entry `i` is `f(i)`. */
  lemma {:induction false} AppendedAt<T>(count: int, f: nat -> T)
    ensures |Appended(count, f)| == EventCount(count)
    ensures forall i :: 0 <= i < |Appended(count, f)| ==> Appended(count, f)[i] == f(i)
    decreases EventCount(count)
  {
    if count > 0 {
      AppendedAt(count - 1, f);
    }
  }

  /** The list after fewer iterations is a prefix of the list after more. */
  lemma {:induction false} AppendedPrefix<T>(n: nat, n': nat, f: nat -> T)
    requires n <= n'
    ensures Appended(n, f) <= Appended(n', f)
    decreases n' - n
  {
    if n < n' {
      var m := n' - 1;
      AppendedPrefix(n, m, f);
      AppendedGrows(m, f);
      assert m + 1 == n';
      assert Appended(m, f) <= Appended(m, f) + [f(m)];
    }
  }

  /** Every trace record has the same five fields, whatever its event list. */
  lemma TraceRecordKeys(identity: Value, events: seq<Value>)
    ensures TraceRecordWith(identity, events).entries.Keys == TraceKeys
  {
  }

  /** The header fields of a trace record are the constants and the identity block. */
  lemma TraceRecordHeader(identity: Value, events: seq<Value>)
    ensures var r := TraceRecordWith(identity, events).entries;
      r[SKey("standard")] == VStr("gs1-trace-record")
      && r[SKey("schema_version")] == VStr("1.0.0")
      && r[SKey("gs1_release")] == VStr("24.0")
      && r[SKey("identity")] == identity
      && r[SKey("events")] == VList(events)
  {
  }

  /** Two trace records with the same identity block differ at most in their event lists. */
  lemma TraceRecordsDifferOnlyInEvents(identity: Value, events: seq<Value>, events': seq<Value>)
    ensures var r, r' := TraceRecordWith(identity, events).entries, TraceRecordWith(identity, events').entries;
      forall k :: k in r && k != SKey("events") ==> k in r' && r[k] == r'[k]
  {
    TraceRecordHeader(identity, events);
    TraceRecordHeader(identity, events');
    TraceRecordKeys(identity, events);
    TraceRecordKeys(identity, events');
  }

  /** The identity block reads back as exactly the base AI map. */
  lemma IdentityRoundTrip(baseAiMap: map<nat, string>)
    ensures ReadAiPayload(Identity(baseAiMap)) == Some(baseAiMap)
  {
    StringMapRoundTrip(AiMapToJsonKeys(baseAiMap));
    AiMapJsonKeysRoundTrip(baseAiMap);
  }

  /** A trace record reads back as the base AI map and the event list it was built from. */
  lemma TraceRecordRoundTrip(baseAiMap: map<nat, string>, events: seq<Value>)
    ensures ReadTraceRecord(TraceRecordWith(Identity(baseAiMap), events)) == Some((baseAiMap, events))
  {
    TraceRecordKeys(Identity(baseAiMap), events);
    TraceRecordHeader(Identity(baseAiMap), events);
    IdentityRoundTrip(baseAiMap);
  }

  /**
   * The record for `numEvents` carries the base AI map and one event per
   * iteration of the loop, event `i` at position `i`; none for a negative count.
   */
  lemma TraceRecordOfContents(baseAiMap: map<nat, string>, numEvents: int)
    ensures ReadTraceRecord(TraceRecordOf(baseAiMap, numEvents)) == Some((baseAiMap, Events(numEvents)))
    ensures |Events(numEvents)| == EventCount(numEvents)
    ensures forall i :: 0 <= i < |Events(numEvents)| ==> Events(numEvents)[i] == Event(i)
  {
    TraceRecordRoundTrip(baseAiMap, Events(numEvents));
    AppendedAt(numEvents, Event);
  }

  /** The events for `n + 1` are the events for `n` and one more event at the end. */
  lemma EventsGrow(n: nat)
    ensures Events(n + 1) == Events(n) + [Event(n)]
    ensures Events(n) <= Events(n + 1)
  {
    AppendedGrows(n, Event);
  }

  /**
   * The timestamp is 20 characters long and its day, hour and minute fields
   * read back as (i mod 28) + 1, i mod 24 and i mod 60.
   */
  lemma TimestampFields(i: nat)
    ensures |Timestamp(i)| == 20
    ensures IsDigits(Timestamp(i)[8..10]) && DecimalValue(Timestamp(i)[8..10]) == i % 28 + 1
    ensures IsDigits(Timestamp(i)[11..13]) && DecimalValue(Timestamp(i)[11..13]) == i % 24
    ensures IsDigits(Timestamp(i)[14..16]) && DecimalValue(Timestamp(i)[14..16]) == i % 60
  {
    var day, hour, minute := Pad2(i % 28 + 1), Pad2(i % 24), Pad2(i % 60);
    Pad2Digits(i % 28 + 1);
    Pad2Digits(i % 24);
    Pad2Digits(i % 60);
    var ts := "2025-01-" + day + "T" + hour + ":" + minute + ":00Z";
    assert ts == Timestamp(i);
    assert ts[8..10] == day;
    assert ts[11..13] == hour;
    assert ts[14..16] == minute;
  }

  /** The type rotates with period 5 through five distinct names. */
  lemma EventTypeCycle(i: nat, j: nat)
    ensures EventType(i) == EventType(j) <==> i % 5 == j % 5
  {
  }

  /** A decimal number after a fixed prefix determines the number, and only it. */
  lemma PrefixedDecimalEq(prefix: string, a: nat, b: nat)
    ensures prefix + NatToDecimal(a) == prefix + NatToDecimal(b) <==> a == b
  {
    if prefix + NatToDecimal(a) == prefix + NatToDecimal(b) {
      NatToDecimalDigits(a);
      NatToDecimalDigits(b);
      assert (prefix + NatToDecimal(a))[|prefix|..] == NatToDecimal(a);
      assert (prefix + NatToDecimal(b))[|prefix|..] == NatToDecimal(b);
    }
  }

  /** The actor rotates with period 7. */
  lemma ActorCycle(i: nat, j: nat)
    ensures Actor(i) == Actor(j) <==> i % 7 == j % 7
  {
    PrefixedDecimalEq("org:", i % 7 + 1, j % 7 + 1);
  }

  /** The location rotates with period 3. */
  lemma LocationCycle(i: nat, j: nat)
    ensures Location(i) == Location(j) <==> i % 3 == j % 3
  {
    PrefixedDecimalEq("gln:", GlnBase + i % 3, GlnBase + j % 3);
  }

  /** No two events of a trace are equal: the note numbers them from 1. */
  lemma EventsDistinct(i: nat, j: nat)
    requires i != j
    ensures Event(i) != Event(j)
  {
    EventNote(i);
    EventNote(j);
  }

  lemma EventNote(i: nat)
    ensures Event(i).VMap? && SKey("note") in Event(i).entries
    ensures Event(i).entries[SKey("note")] == VStr(Note(i))
  {
  }

  /** The first event, whatever the count. */
  lemma FirstEvent()
    ensures Event(0) == VMap(map[
      SKey("ts") := VStr("2025-01-01T00:00:00Z"),
      SKey("type") := VStr("pack"),
      SKey("actor") := VStr("org:1"),
      SKey("loc") := VStr("gln:9876543210987"),
      SKey("note") := VStr("event-1")])
  {
    FirstTimestamp();
    FirstLocation();
    FirstActorAndNote();
  }

  lemma FirstTimestamp()
    ensures Timestamp(0) == "2025-01-01T00:00:00Z"
  {
    assert Pad2(1) == "01";
    assert Pad2(0) == "00";
  }

  lemma FirstActorAndNote()
    ensures Actor(0) == "org:1" && Note(0) == "event-1"
  {
    assert NatToDecimal(1) == "1";
  }

  lemma FirstLocation()
    ensures Location(0) == "gln:9876543210987"
  {
    GlnBaseDecimal();
    assert GlnBase + 0 % 3 == 9876543210987;
  }

  /** `str(9876543210987)`, one digit at a time. */
  lemma GlnBaseDecimal()
    ensures NatToDecimal(9876543210987) == "9876543210987"
  {
    assert NatToDecimal(98) == "98";
    assert NatToDecimal(987) == "987";
    assert NatToDecimal(9876) == "9876";
    assert NatToDecimal(98765) == "98765";
    assert NatToDecimal(987654) == "987654";
    assert NatToDecimal(9876543) == "9876543";
    assert NatToDecimal(98765432) == "98765432";
    assert NatToDecimal(987654321) == "987654321";
    assert NatToDecimal(9876543210) == "9876543210";
    assert NatToDecimal(98765432109) == "98765432109";
    assert NatToDecimal(987654321098) == "987654321098";
  }
}
