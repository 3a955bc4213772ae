/** An operator can read off a dead letter what it was and why it is there. */
module DeadLetters {
  import opened Common
  import opened EventLog
  import opened Consumer
  import opened Conservation
  import opened Delivery
  import Producer

  // ---------------------------------------------------------------------------
  // Numbers
  // ---------------------------------------------------------------------------

  predicate IsDigit(c: char) {
    '0' <= c <= '9'
  }

  function ReadDecimal(s: string): nat {
    if s == "" || !IsDigit(s[|s| - 1]) then 0 else 10 * ReadDecimal(s[..|s| - 1]) + (s[|s| - 1] as int - '0' as int)
  }

  /** A number is written in digits, without leading zeros, so that reading them gives it back. */
  lemma {:induction false} DecimalIsReadable(n: nat)
    ensures ReadDecimal(Decimal(n)) == n
    ensures Decimal(n) != "" && (n > 0 ==> Decimal(n)[0] != '0')
    ensures forall i :: 0 <= i < |Decimal(n)| ==> IsDigit(Decimal(n)[i])
  {
    if n >= 10 {
      DecimalIsReadable(n / 10);
      var front := Decimal(n / 10);
      assert Decimal(n)[..|front|] == front;
    } else {
      assert Decimal(n)[..0] == "";
    }
  }

  // ---------------------------------------------------------------------------
  // Headers
  // ---------------------------------------------------------------------------

  type Headers = seq<(string, string)>

  /** What the diagnostic headers say, and the headers the record came with. */
  datatype Diagnosis = Diagnosis(topic: string, retries: nat, error: string, eventAndTenant: Option<(string, string)>, original: Headers)

  function Diagnose(headers: Headers): Option<Diagnosis> {
    var n := |headers|;
    if n >= 2 && headers[n - 1].0 == "x-tenant-id" && headers[n - 2].0 == "x-event-id" then
      DiagnoseCore(headers[..n - 2], Some((headers[n - 2].1, headers[n - 1].1)))
    else
      DiagnoseCore(headers, None)
  }

  function DiagnoseCore(headers: Headers, eventAndTenant: Option<(string, string)>): Option<Diagnosis> {
    var n := |headers|;
    if n >= 3 && headers[n - 3].0 == "x-original-topic" && headers[n - 2].0 == "x-retry-count" && headers[n - 1].0 == "x-error-message"
    then Some(Diagnosis(headers[n - 3].1, ReadDecimal(headers[n - 2].1), headers[n - 1].1, eventAndTenant, headers[..n - 3]))
    else None
  }

  lemma CoreIsReadable(original: Headers, topic: string, retries: nat, error: string, eventAndTenant: Option<(string, string)>)
    ensures DiagnoseCore(original + [(ORIGINAL_TOPIC, topic), (RETRY_COUNT, Decimal(retries)), (ERROR_MESSAGE, error)], eventAndTenant)
         == Some(Diagnosis(topic, retries, error, eventAndTenant, original))
  {
    var headers := original + [(ORIGINAL_TOPIC, topic), (RETRY_COUNT, Decimal(retries)), (ERROR_MESSAGE, error)];
    DecimalIsReadable(retries);
    assert headers[..|original|] == original;
  }

  /** The headers the consumer puts on a dead letter, read back. */
  lemma ConsumerHeadersAreReadable(topic: string, rec: Message, envelope: Option<Envelope>, error: string, retries: nat)
    ensures var ids := if envelope.Some? then Some((envelope.value.eventId, envelope.value.tenantId)) else None;
            Diagnose(LetterFor(topic, rec, envelope, error, retries).headers) == Some(Diagnosis(topic, retries, error, ids, rec.headers))
  {
    var core := rec.headers + [(ORIGINAL_TOPIC, topic), (RETRY_COUNT, Decimal(retries)), (ERROR_MESSAGE, error)];
    var headers := LetterFor(topic, rec, envelope, error, retries).headers;
    match envelope
    case Some(e) =>
      assert headers == core + [(EVENT_ID, e.eventId), (TENANT_ID, e.tenantId)];
      assert headers[..|headers| - 2] == core;
      CoreIsReadable(rec.headers, topic, retries, error, Some((e.eventId, e.tenantId)));
    case None =>
      assert headers == core;
      assert "x-error-message" != "x-tenant-id";
      CoreIsReadable(rec.headers, topic, retries, error, None);
  }

  /** The headers the producer puts on an event it could not publish, read back. */
  lemma ProducerHeadersAreReadable(topic: string, e: Producer.Event, retries: nat, error: string)
    ensures Diagnose(Producer.DlqHeaders(topic, e, retries, error)) == Some(Diagnosis(topic, retries, error, None, e.headers))
  {
    assert "x-error-message" != "x-tenant-id";
    CoreIsReadable(e.headers, topic, retries, error, None);
  }

  // ---------------------------------------------------------------------------
  // Deliveries
  // ---------------------------------------------------------------------------

  /** The error that sent a record to the dead-letter topic: of its parsing, or of the last attempt. */
  function LastError(s: Subscription, rec: Message, o: Oracle): string {
    if s.parse(rec.value).Err? then s.parse(rec.value).error else o.AttemptError(s.maxRetries).GetOr("")
  }

  /**
   A delivery that was forwarded adds one record to the topic's dead-letter topic, and that record tells the
   value and key, the original headers, the topic, the number of handler calls and the error that ended it.
   */
  lemma DeadLetterTellsAll(bus: Bus, s: Subscription, rec: Message, o: Oracle)
    requires s.maxRetries >= 1 && rec.topic != s.topic + ".dlq"
    requires VerdictFor(s, rec, o).DeadLettered? || VerdictFor(s, rec, o).CommitFailed?
    ensures var v := VerdictFor(s, rec, o);
            var before, after := Look(bus, s.topic + ".dlq").records, Look(AfterVerdict(bus, s, rec, v), s.topic + ".dlq").records;
            && |after| == |before| + 1 && before <= after
            && after[|before|].value == rec.value && after[|before|].key == Some(rec.key.GetOr(""))
            && var d := Diagnose(after[|before|].headers);
               && d.Some? && d.value.topic == s.topic && d.value.original == rec.headers
               && d.value.retries == v.calls && d.value.error == LastError(s, rec, o)
               && (d.value.eventAndTenant.Some? <==> s.parse(rec.value).Ok?)
               && (s.parse(rec.value).Ok? ==>
                     d.value.eventAndTenant.value == (s.parse(rec.value).value.eventId, s.parse(rec.value).value.tenantId))
  {
    var v := VerdictFor(s, rec, o);
    var letter := v.letter;
    SendMeans(bus, s.topic + ".dlq", Some(letter.key), letter.value, letter.headers);
    var sent := AfterLetter(bus, s.topic, letter);
    CommitMeans(sent, rec.topic, s.group, rec.offset + 1);
    match s.parse(rec.value)
    case Err(error) => ConsumerHeadersAreReadable(s.topic, rec, None, error, 0);
    case Ok(envelope) =>
      ConsumerHeadersAreReadable(s.topic, rec, Some(envelope), o.AttemptError(s.maxRetries).value, s.maxRetries);
  }
}
