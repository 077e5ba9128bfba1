/** The job payload and its wire format.
    JSON text is modelled by the value it denotes, so serialising is building that value
    and parsing is reading it back. */
module JobPayload {
  import opened Prelude

  datatype Json = Str(s: string) | Num(n: int) | Obj(fields: map<string, Json>)

  type JobId = string

  datatype QueueJobPayload = QueueJobPayload(
    jobId: JobId,
    taskName: string,
    idempotencyKey: string,
    context: map<string, Json>,
    retryMetadata: map<string, Json>,
    enqueuedAt: string)
  {
    /** What the constructor's post-initialisation establishes. */
    predicate Normal() {
      idempotencyKey == "" ==> jobId == ""
    }
  }

  /** Every payload object has passed post-initialisation. */
  type Payload = p: QueueJobPayload | p.Normal()
    witness QueueJobPayload("", "", "", map[], map[], "")

  const JOB_ID := "job_id"
  const TASK_NAME := "task_name"
  const IDEMPOTENCY_KEY := "idempotency_key"
  const CONTEXT := "context"
  const RETRY_METADATA := "retry_metadata"
  const ENQUEUED_AT := "enqueued_at"

  const KNOWN_FIELDS := {JOB_ID, TASK_NAME, IDEMPOTENCY_KEY, CONTEXT, RETRY_METADATA, ENQUEUED_AT}

  /** Post-initialisation: an empty idempotency key becomes the job id. */
  function Normalize(p: QueueJobPayload): (r: Payload)
    ensures p.Normal() <==> r == p
  {
    if p.idempotencyKey == "" then p.(idempotencyKey := p.jobId) else p
  }

  function ToJson(p: QueueJobPayload): Json {
    Obj(map[
      JOB_ID := Str(p.jobId),
      TASK_NAME := Str(p.taskName),
      IDEMPOTENCY_KEY := Str(p.idempotencyKey),
      CONTEXT := Obj(p.context),
      RETRY_METADATA := Obj(p.retryMetadata),
      ENQUEUED_AT := Str(p.enqueuedAt)])
  }

  /** A string field, its default when the key is absent, nothing when it has another type. */
  function StringField(fields: map<string, Json>, key: string, default: Option<string>): Option<string> {
    if key !in fields then default
    else if fields[key].Str? then Some(fields[key].s) else None
  }

  function ObjectField(fields: map<string, Json>, key: string): Option<map<string, Json>> {
    if key !in fields then Some(map[])
    else if fields[key].Obj? then Some(fields[key].fields) else None
  }

  /** Deserialise: keep the known fields, default the optional ones, fail when a required one
      is missing. `now` is the default of `enqueued_at`. */
  function FromJson(raw: Json, now: string): Option<Payload> {
    if !raw.Obj? then None
    else
      var id := StringField(raw.fields, JOB_ID, None);
      var task := StringField(raw.fields, TASK_NAME, None);
      var key := StringField(raw.fields, IDEMPOTENCY_KEY, Some(""));
      var context := ObjectField(raw.fields, CONTEXT);
      var retry := ObjectField(raw.fields, RETRY_METADATA);
      var at := StringField(raw.fields, ENQUEUED_AT, Some(now));
      if id.Some? && task.Some? && key.Some? && context.Some? && retry.Some? && at.Some? then
        Some(Normalize(QueueJobPayload(id.value, task.value, key.value, context.value, retry.value, at.value)))
      else None
  }

  lemma FieldNamesDistinct()
    ensures |KNOWN_FIELDS| == 6
    ensures JOB_ID != TASK_NAME && JOB_ID != IDEMPOTENCY_KEY && JOB_ID != CONTEXT
    ensures JOB_ID != RETRY_METADATA && JOB_ID != ENQUEUED_AT
    ensures TASK_NAME != IDEMPOTENCY_KEY && TASK_NAME != CONTEXT && TASK_NAME != RETRY_METADATA
    ensures TASK_NAME != ENQUEUED_AT
    ensures IDEMPOTENCY_KEY != CONTEXT && IDEMPOTENCY_KEY != RETRY_METADATA && IDEMPOTENCY_KEY != ENQUEUED_AT
    ensures CONTEXT != RETRY_METADATA && CONTEXT != ENQUEUED_AT
    ensures RETRY_METADATA != ENQUEUED_AT
  {
    assert |JOB_ID| == 6 && |TASK_NAME| == 9 && |IDEMPOTENCY_KEY| == 15;
    assert |CONTEXT| == 7 && |RETRY_METADATA| == 14 && |ENQUEUED_AT| == 11;
  }

  predicate StringOrAbsent(fields: map<string, Json>, key: string) {
    key in fields ==> fields[key].Str?
  }

  predicate ObjectOrAbsent(fields: map<string, Json>, key: string) {
    key in fields ==> fields[key].Obj?
  }

  /** What is read: exactly the objects with a job id and a task name; each field under its own name,
      the optional ones with their defaults, and the job id in place of an empty key. */
  lemma Reads(fields: map<string, Json>, now: string)
    ensures FromJson(Obj(fields), now).Some? <==>
              && "job_id" in fields && fields["job_id"].Str?
              && "task_name" in fields && fields["task_name"].Str?
              && StringOrAbsent(fields, "idempotency_key") && StringOrAbsent(fields, "enqueued_at")
              && ObjectOrAbsent(fields, "context") && ObjectOrAbsent(fields, "retry_metadata")
    ensures FromJson(Obj(fields), now).Some? ==>
              var p := FromJson(Obj(fields), now).value;
              && p.jobId == fields["job_id"].s && p.taskName == fields["task_name"].s
              && p.idempotencyKey == (if "idempotency_key" in fields && fields["idempotency_key"].s != ""
                                      then fields["idempotency_key"].s else fields["job_id"].s)
              && p.context == (if "context" in fields then fields["context"].fields else map[])
              && p.retryMetadata == (if "retry_metadata" in fields then fields["retry_metadata"].fields else map[])
              && p.enqueuedAt == (if "enqueued_at" in fields then fields["enqueued_at"].s else now)
  {
  }

  /** Serialising and parsing back, with whatever fields a newer writer added, gives the payload
      with its idempotency key normalised; hence exactly the same payload iff it was normal. */
  lemma RoundTrip(p: QueueJobPayload, extra: map<string, Json>, now: string)
    requires extra.Keys !! KNOWN_FIELDS
    ensures FromJson(Obj(ToJson(p).fields + extra), now) == Some(Normalize(p))
    ensures FromJson(Obj(ToJson(p).fields + extra), now) == Some(p) <==> p.Normal()
  {
    FieldNamesDistinct();
    assert JOB_ID in KNOWN_FIELDS && TASK_NAME in KNOWN_FIELDS && IDEMPOTENCY_KEY in KNOWN_FIELDS;
    assert CONTEXT in KNOWN_FIELDS && RETRY_METADATA in KNOWN_FIELDS && ENQUEUED_AT in KNOWN_FIELDS;
  }

  /** What the queue itself relies on: a payload object survives the wire. */
  lemma WireRoundTrip(p: Payload, now: string)
    ensures FromJson(ToJson(p), now) == Some(p)
  {
    RoundTrip(p, map[], now);
    assert ToJson(p).fields + map[] == ToJson(p).fields;
  }

  /** An older payload without the key parses to one whose key is its job id. */
  lemma MissingKeyDefaultsToJobId(p: QueueJobPayload, now: string)
    ensures FromJson(Obj(ToJson(p).fields - {IDEMPOTENCY_KEY}), now)
         == Some(p.(idempotencyKey := p.jobId))
  {
    FieldNamesDistinct();
  }

  /** The job id a raw queue element carries; elements that do not parse carry none. */
  function RawId(raw: Json): Option<JobId> {
    match FromJson(raw, "")
    case Some(p) => Some(p.jobId)
    case None => None
  }

  lemma RawIdOfWire(p: Payload)
    ensures RawId(ToJson(p)) == Some(p.jobId)
  {
    WireRoundTrip(p, "");
  }

  /** Whether a raw element parses, and its id, do not depend on the clock. */
  lemma ParseIgnoresClock(raw: Json, now: string)
    ensures FromJson(raw, now).Some? <==> RawId(raw).Some?
    ensures FromJson(raw, now).Some? ==> FromJson(raw, now).value.jobId == RawId(raw).value
  {
  }
}
