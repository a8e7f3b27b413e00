/**
 * Log entries and the JSON form in which batches of them are written to the
 * fallback store (and posted to the endpoint).
 *
 * The serializer options used by the processor and the file store ignore
 * properties whose value is null, so an absent optional field is simply not
 * written; reading a batch back fills every missing optional field with null.
 */
module LogEntries {

  datatype Option<+T> = None | Some(value: T)

  /** One observed event. Every string property of the entry is nullable. */
  datatype LogEntry = LogEntry(
    timestamp: int,               // a UTC instant, as a tick count
    logLevel: Option<string>,
    message: Option<string>,
    exception: Option<string>,
    traceId: Option<string>,
    userId: Option<string>,
    // deployment metadata, stamped by the processor at drain time
    projectName: Option<string>,
    environment: Option<string>,
    machineName: Option<string>,
    ipAddress: Option<string>)

  type Batch = seq<LogEntry>

  /** The deployment metadata the processor writes into every entry it drains. */
  datatype Deployment = Deployment(
    projectName: string, environment: string, machineName: string, ipAddress: string)

  /** What a producer put into an entry: everything but the deployment metadata. */
  predicate SameContent(a: LogEntry, b: LogEntry) {
    && a.timestamp == b.timestamp
    && a.logLevel == b.logLevel
    && a.message == b.message
    && a.exception == b.exception
    && a.traceId == b.traceId
    && a.userId == b.userId
  }

  /** Stamps an entry with the deployment metadata of this process. */
  function Stamp(e: LogEntry, d: Deployment): LogEntry {
    e.(projectName := Some(d.projectName), environment := Some(d.environment),
       machineName := Some(d.machineName), ipAddress := Some(d.ipAddress))
  }

  /** Stamping keeps the producer's content and overrides whatever metadata the
      producer may have put in: two entries are equal once stamped exactly when
      they carry the same content. */
  lemma StampKeepsOnlyContent(a: LogEntry, b: LogEntry, d: Deployment)
    ensures SameContent(Stamp(a, d), a)
    ensures Stamp(a, d).projectName == Some(d.projectName)
    ensures Stamp(a, d).environment == Some(d.environment)
    ensures Stamp(a, d).machineName == Some(d.machineName)
    ensures Stamp(a, d).ipAddress == Some(d.ipAddress)
    ensures Stamp(a, d) == Stamp(b, d) <==> SameContent(a, b)
    ensures Stamp(Stamp(a, d), d) == Stamp(a, d)
  {
  }

  function StampAll(s: seq<LogEntry>, d: Deployment): (r: seq<LogEntry>)
    ensures |r| == |s|
    ensures forall i :: 0 <= i < |s| ==> r[i] == Stamp(s[i], d)
  {
    if s == [] then [] else [Stamp(s[0], d)] + StampAll(s[1..], d)
  }

  lemma {:induction false} StampAllAppend(s: seq<LogEntry>, t: seq<LogEntry>, d: Deployment)
    ensures StampAll(s + t, d) == StampAll(s, d) + StampAll(t, d)
  {
    if s != [] {
      assert (s + t)[1..] == s[1..] + t;
      StampAllAppend(s[1..], t, d);
    }
  }

  /** Stamping one more entry of a sequence extends the stamped prefix by it. */
  lemma StampAllSnoc(s: seq<LogEntry>, i: nat, d: Deployment)
    requires i < |s|
    ensures StampAll(s[..i + 1], d) == StampAll(s[..i], d) + [Stamp(s[i], d)]
  {
    assert s[..i + 1] == s[..i] + [s[i]];
    StampAllAppend(s[..i], [s[i]], d);
  }

  // ---------------------------------------------------------------------------
  // JSON wire form

  datatype JsonValue = JNull | JNumber(n: int) | JString(s: string)

  /** The properties of a serialized entry, written under the C# property
      names (default naming). A JSON object is keyed by these; properties of
      any other name are ignored when reading, so they are not kept. */
  datatype Property =
    | Timestamp | LogLevel | Message | Exception | TraceId | UserId
    | ProjectName | Environment | MachineName | IpAddress

  type JsonObject = map<Property, JsonValue>

  /** The outcome of binding a JSON value to a typed property: a type mismatch
      makes the deserializer throw. */
  datatype Decoded<+T> = Ok(value: T) | Malformed {
    predicate IsFailure() { Malformed? }
    function PropagateFailure<U>(): Decoded<U> requires Malformed? { Malformed }
    function Extract(): T requires Ok? { value }
  }

  /** The value a missing "Timestamp" property leaves in the entry. */
  const DefaultTimestamp := 0

  const AllProperties: set<Property> :=
    {Timestamp, LogLevel, Message, Exception, TraceId, UserId,
     ProjectName, Environment, MachineName, IpAddress}

  /** The value of a nullable string property of an entry. */
  function TextOf(e: LogEntry, p: Property): Option<string>
    requires p != Timestamp
  {
    match p
    case LogLevel => e.logLevel
    case Message => e.message
    case Exception => e.exception
    case TraceId => e.traceId
    case UserId => e.userId
    case ProjectName => e.projectName
    case Environment => e.environment
    case MachineName => e.machineName
    case IpAddress => e.ipAddress
  }

  /** Every property present has a JSON type its field can hold: a number for
      the timestamp, a string or null for the others. */
  predicate WellTyped(o: JsonObject) {
    && (Timestamp in o ==> o[Timestamp].JNumber?)
    && forall p :: p in o && p != Timestamp ==> !o[p].JNumber?
  }

  /** Serializes one entry: the timestamp always, every other property only
      when it is not null. */
  function EncodeEntry(e: LogEntry): (o: JsonObject)
    ensures Timestamp in o && o[Timestamp] == JNumber(e.timestamp)
    ensures forall p :: p in o ==> o[p] != JNull
    ensures forall p :: p != Timestamp ==> (p in o <==> TextOf(e, p).Some?)
    ensures WellTyped(o)
  {
    map p | p in AllProperties && (p == Timestamp || TextOf(e, p).Some?) ::
      if p == Timestamp then JNumber(e.timestamp) else JString(TextOf(e, p).value)
  }

  /** Reads a nullable string property: missing or null gives null, a number
      cannot be bound to a string. */
  function ReadText(o: JsonObject, key: Property): Decoded<Option<string>> {
    if key !in o then Ok(None)
    else match o[key]
      case JNull => Ok(None)
      case JString(s) => Ok(Some(s))
      case JNumber(_) => Malformed
  }

  /** Reads the non-nullable timestamp: missing leaves the default, null or a
      string cannot be bound. */
  function ReadTimestamp(o: JsonObject): Decoded<int> {
    if Timestamp !in o then Ok(DefaultTimestamp)
    else match o[Timestamp]
      case JNumber(n) => Ok(n)
      case _ => Malformed
  }

  /** Binds one JSON object to an entry; properties of other names are ignored. */
  function DecodeEntry(o: JsonObject): Decoded<LogEntry> {
    var ts :- ReadTimestamp(o);
    var level :- ReadText(o, LogLevel);
    var message :- ReadText(o, Message);
    var exception :- ReadText(o, Exception);
    var traceId :- ReadText(o, TraceId);
    var userId :- ReadText(o, UserId);
    var project :- ReadText(o, ProjectName);
    var environment :- ReadText(o, Environment);
    var machine :- ReadText(o, MachineName);
    var ip :- ReadText(o, IpAddress);
    Ok(LogEntry(ts, level, message, exception, traceId, userId, project, environment, machine, ip))
  }

  /** An object binds to an entry exactly when it is well typed; the entry
      then has the object's timestamp, or the default when it has none, and
      every other field holds the object's string, or null. */
  lemma DecodeEntryBinds(o: JsonObject)
    ensures var r := DecodeEntry(o);
      && (r.Ok? <==> WellTyped(o))
      && (r.Ok? ==> r.value.timestamp == if Timestamp in o then o[Timestamp].n else DefaultTimestamp)
      && (r.Ok? ==> forall p :: p != Timestamp ==>
            TextOf(r.value, p) == if p in o && o[p].JString? then Some(o[p].s) else None)
  {
  }

  lemma EntryRoundTrip(e: LogEntry)
    ensures DecodeEntry(EncodeEntry(e)) == Ok(e)
  {
    var o := EncodeEntry(e);
    forall p | p != Timestamp ensures ReadText(o, p) == Ok(TextOf(e, p)) {
      assert p in AllProperties;
    }
    assert ReadTimestamp(o) == Ok(e.timestamp);
  }

  function EncodeEntries(b: Batch): (items: seq<JsonObject>)
    ensures |items| == |b|
    ensures forall i :: 0 <= i < |b| ==> items[i] == EncodeEntry(b[i])
  {
    if b == [] then [] else [EncodeEntry(b[0])] + EncodeEntries(b[1..])
  }

  /** Binds a JSON array of objects; one element that cannot be bound fails the whole array. */
  function DecodeEntries(items: seq<JsonObject>): (r: Decoded<Batch>)
    ensures r.Ok? ==> |r.value| == |items|
  {
    if items == [] then Ok([])
    else
      var head :- DecodeEntry(items[0]);
      var tail :- DecodeEntries(items[1..]);
      Ok([head] + tail)
  }

  /** A JSON array binds to a list exactly when every element binds to an
      entry, and then element i of the list is what object i binds to. */
  lemma {:induction false} DecodeEntriesElements(items: seq<JsonObject>)
    ensures var r := DecodeEntries(items);
      && (r.Ok? <==> forall i :: 0 <= i < |items| ==> WellTyped(items[i]))
      && (r.Ok? ==> forall i :: 0 <= i < |items| ==> DecodeEntry(items[i]) == Ok(r.value[i]))
  {
    if items != [] {
      DecodeEntryBinds(items[0]);
      DecodeEntriesElements(items[1..]);
      assert forall i :: 1 <= i < |items| ==> items[i] == items[1..][i - 1];
    }
  }

  lemma {:induction false} EntriesRoundTrip(b: Batch)
    ensures DecodeEntries(EncodeEntries(b)) == Ok(b)
  {
    if b != [] {
      EntryRoundTrip(b[0]);
      EntriesRoundTrip(b[1..]);
      assert EncodeEntries(b)[1..] == EncodeEntries(b[1..]);
      assert [b[0]] + b[1..] == b;
    }
  }
}
