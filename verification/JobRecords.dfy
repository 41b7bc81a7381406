/** Job records as the Lua scripts of the job queue see them. */
module JobRecords {
  // JSON itself is not modelled: a string is either something cjson.decode rejects, or a
  // document made of the value it decodes to and of the layout (white space, key order,
  // number spelling) that decoding forgets.  cjson.encode always writes the empty layout,
  // so decoding what was encoded gives the value back.

  datatype Text = Broken(bytes: string) | Doc(layout: string, value: Value)

  datatype Field = Absent | False | Str(text: Text) | Num(n: nat) | Other(bytes: string)

  /** A decoded value; `rest` stands for the fields no script looks at. */
  datatype Value =
    | Scalar(bytes: string)
    | Table(rawJob: Field, id: Field, kind: Field, enqueuedAt: Field,
            attempt: Field, lastError: Field, rest: string)

  const EMPTY_STRING := Broken("")

  const MAX_ATTEMPTS := 5
  const BASE_RETRY_DELAY := 2000
  const MAX_RETRY_DELAY := 60000

  function Encode(v: Value): Text {
    Doc("", v)
  }

  predicate IsTable(t: Text) {
    t.Doc? && t.value.Table?
  }

  /** The stored string is a delivery envelope around another string. */
  predicate IsEnvelope(t: Text) {
    IsTable(t) && t.value.rawJob.Str?
  }

  /** The bytes of the job itself: what the envelope carries, or the whole string. */
  function RawJob(t: Text): Text {
    if IsEnvelope(t) then t.value.rawJob.text else t
  }

  /** Lua's `x and job.f or default`: a missing or false field gives the default. */
  function OrDefault(f: Field, default: Field): Field {
    if f.Absent? || f.False? then default else f
  }

  /** The delivery table a script works on: the envelope, or one built around a bare job. */
  function OpenDelivery(t: Text): (v: Value)
    ensures v.Table? && v.rawJob == Str(RawJob(t))
  {
    if IsEnvelope(t) then t.value
    else
      var attempt := if IsTable(t) then OrDefault(t.value.attempt, Num(0)) else Num(0);
      var lastError := if IsTable(t) then OrDefault(t.value.lastError, Str(EMPTY_STRING)) else Str(EMPTY_STRING);
      Table(Str(t), Absent, Absent, Absent, attempt, lastError, "")
  }

  /** The job object has the three string fields that make it a job. */
  predicate ValidJob(job: Text) {
    IsTable(job) && job.value.id.Str? && job.value.kind.Str? && job.value.enqueuedAt.Str?
  }

  /** The record may be reserved. */
  predicate ValidRecord(t: Text) {
    ValidJob(RawJob(t)) && OpenDelivery(t).attempt.Num?
  }

  /** The record was written by a reservation: an envelope whose attempt counts a delivery. */
  predicate IsDelivery(t: Text) {
    && IsEnvelope(t) && ValidJob(RawJob(t))
    && t.value.attempt.Num? && 1 <= t.value.attempt.n
  }

  /** Deliveries already counted on a record: none when the attempt field is unusable. */
  function Attempts(t: Text): nat {
    if OpenDelivery(t).attempt.Num? then OpenDelivery(t).attempt.n else 0
  }

  /** Count and error aside, a rewritten envelope has the fields it had. */
  predicate SameBut(d: Text, t: Text) {
    && d.Doc? && t.Doc? && d.value.Table? && t.value.Table? && d.layout == ""
    && d.value.id == t.value.id && d.value.kind == t.value.kind
    && d.value.enqueuedAt == t.value.enqueuedAt && d.value.rest == t.value.rest
  }

  function Delivered(t: Text): (d: Text)
    requires ValidRecord(t)
    ensures IsDelivery(d) && RawJob(d) == RawJob(t) && Attempts(d) == Attempts(t) + 1
  {
    Encode(OpenDelivery(t).(attempt := Num(OpenDelivery(t).attempt.n + 1)))
  }

  function WithError(t: Text, message: Text): (d: Text)
    requires IsDelivery(t)
    ensures IsDelivery(d) && RawJob(d) == RawJob(t) && Attempts(d) == Attempts(t)
    ensures d.value.lastError == Str(message)
  {
    Encode(t.value.(lastError := Str(message)))
  }

  /** What the replay script pushes: the same job with no delivery counted. */
  function Replayed(t: Text): (d: Text)
    requires ValidJob(RawJob(t))
    ensures ValidRecord(d) && RawJob(d) == RawJob(t) && Attempts(d) == 0
  {
    var delivery := if IsEnvelope(t) then t.value
                    else Table(Str(t), Absent, Absent, Absent, Absent, Absent, "");
    Encode(delivery.(attempt := Num(0), lastError := Str(EMPTY_STRING)))
  }

  function Pow2(n: nat): (p: nat)
    ensures 1 <= p
  {
    if n == 0 then 1 else 2 * Pow2(n - 1)
  }

  function Min(a: int, b: int): int {
    if a <= b then a else b
  }

  /** The wait before the delivery that follows delivery number `attempt`. */
  function Backoff(attempt: nat): int
    requires 1 <= attempt
  {
    Min(BASE_RETRY_DELAY * Pow2(attempt - 1), MAX_RETRY_DELAY)
  }

  /** Deliveries 1 to 4 are followed by 2, 4, 8 and 16 seconds: below the attempt limit the
      60-second cap never decides. */
  lemma BackoffSchedule(attempt: nat)
    requires 1 <= attempt < MAX_ATTEMPTS
    ensures Backoff(attempt) == BASE_RETRY_DELAY * Pow2(attempt - 1) < MAX_RETRY_DELAY
    ensures attempt <= 4 && Backoff(attempt) == [2000, 4000, 8000, 16000][attempt - 1]
  {
    assert Pow2(0) == 1 && Pow2(1) == 2;
    assert Pow2(2) == 4 && Pow2(3) == 8;
  }

  lemma {:induction false} Pow2Grows(n: nat)
    requires 5 <= n
    ensures 32 <= Pow2(n)
  {
    if n == 5 {
      assert Pow2(3) == 8 && Pow2(4) == 16;
    } else {
      Pow2Grows(n - 1);
    }
  }

  /** In milliseconds: doubled after every delivery, and never more than a minute. */
  lemma BackoffInNumbers(attempt: nat)
    requires 1 <= attempt
    ensures Backoff(attempt) == if attempt <= 5 then [2000, 4000, 8000, 16000, 32000][attempt - 1] else 60_000
  {
    assert Pow2(0) == 1 && Pow2(1) == 2;
    assert Pow2(2) == 4 && Pow2(3) == 8 && Pow2(4) == 16;
    if 6 <= attempt {
      Pow2Grows(attempt - 1);
    }
  }

  /** A bare job as Enqueue writes it. */
  function NewJob(id: Text, kind: Text, enqueuedAt: Text, payload: string, layout: string): (t: Text)
    ensures ValidRecord(t) && RawJob(t) == t && Attempts(t) == 0
    ensures t.value.id == Str(id) && t.value.kind == Str(kind) && t.value.enqueuedAt == Str(enqueuedAt)
  {
    Doc(layout, Table(Absent, Str(id), Str(kind), Str(enqueuedAt), Num(0), Absent, payload))
  }

  /** The three ways to rewrite an envelope touch its count and its error, and nothing else: a
      delivery keeps the error, a failure keeps the count, a replay clears both. */
  lemma RewritesKeepFields(t: Text, message: Text)
    requires IsEnvelope(t)
    ensures ValidRecord(t) ==> SameBut(Delivered(t), t) && Delivered(t).value.lastError == t.value.lastError
    ensures IsDelivery(t) ==>
      && SameBut(WithError(t, message), t) && WithError(t, message).value.attempt == t.value.attempt
      && WithError(t, message).value.lastError == Str(message)
    ensures ValidJob(RawJob(t)) ==>
      && SameBut(Replayed(t), t) && Replayed(t).value.attempt == Num(0)
      && Replayed(t).value.lastError == Str(Broken(""))
  {
  }

  /** A job that is the value of a document: an object with a string for id, type and time. */
  predicate IsJobObject(v: Value) {
    v.Table? && v.id.Str? && v.kind.Str? && v.enqueuedAt.Str?
  }

  /** What may be reserved, said of the two forms a record has.  An envelope needs a job inside and
      a number in its own attempt field; a bare job may also lack that field or have false there,
      and counts from zero then.  Nothing else is a record. */
  lemma ValidRecordForms(t: Text)
    ensures ValidRecord(t) <==>
      && t.Doc? && t.value.Table?
      && match t.value.rawJob
         case Str(job) => job.Doc? && IsJobObject(job.value) && t.value.attempt.Num?
         case _ => IsJobObject(t.value) && (t.value.attempt.Num? || t.value.attempt.Absent? || t.value.attempt.False?)
    ensures ValidRecord(t) && !t.value.rawJob.Str? ==>
      && RawJob(t) == t && Delivered(t).value.rawJob == Str(t)
      && Attempts(t) == (if t.value.attempt.Num? then t.value.attempt.n else 0)
      && Delivered(t).value.lastError
         == (if t.value.lastError.Absent? || t.value.lastError.False? then Str(Broken("")) else t.value.lastError)
    ensures ValidJob(RawJob(t)) <==>
      && t.Doc?
      && if t.value.Table? && t.value.rawJob.Str? then
           t.value.rawJob.text.Doc? && IsJobObject(t.value.rawJob.text.value)
         else IsJobObject(t.value)
  {
  }

  /** A job with an id nobody used is a text nobody used, whatever else it contains. */
  lemma FreshIdFreshJob(known: set<Text>, id: Text, kind: Text, enqueuedAt: Text, payload: string, layout: string)
    requires forall t :: t in known && ValidJob(t) ==> t.value.id != Str(id)
    ensures NewJob(id, kind, enqueuedAt, payload, layout) !in known
  {
    assert ValidJob(NewJob(id, kind, enqueuedAt, payload, layout));
  }
}
