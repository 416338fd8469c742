/**
 * The settings-gated stream relay of app/routes/webhook.tsx: authenticate, look up the shop's
 * flag, build the event, send it, and acknowledge with 200 on every path.
 */
module WebhookRoute {
  import opened Outcomes
  import opened Json
  import opened Platform
  import opened Settings
  import opened KinesisRecords
  import opened Kinesis

  /** The event built for the stream: its id is the topic, an underscore and `Date.now()`. */
  function Envelope(w: AuthenticatedWebhook, nowMillis: string, receivedAt: string): (e: ShopifyEvent)
    ensures e.shop == w.shop && e.topic == w.topic && e.payload == w.payload
    ensures e.id == w.topic + "_" + nowMillis && e.timestamp == receivedAt
  {
    ShopifyEvent(w.topic + "_" + nowMillis, w.topic, w.shop, w.payload, receivedAt)
  }

  /** The body stored on the stream carries the route's id, shop, topic and payload, not the `evt_` id. */
  lemma StoredBodyOfWebhook(w: AuthenticatedWebhook, nowMillis: string, receivedAt: string, eventId: string, processedAt: string)
    ensures var body := RecordBody(Envelope(w, nowMillis, receivedAt), eventId, processedAt);
      body["id"] == JStr(w.topic + "_" + nowMillis) &&
      body["shop"] == JStr(w.shop) && body["topic"] == JStr(w.topic) && body["payload"] == w.payload &&
      body["timestamp"] == JStr(receivedAt) && body["processedAt"] == JStr(processedAt)
  {
    GeneratedIdIsOverridden(Envelope(w, nowMillis, receivedAt), eventId, eventId, processedAt);
  }

  /** The request is relayed: authentication passed, the lookup answered, and the shop's row is enabled. */
  predicate Relays(auth: Outcome<AuthenticatedWebhook>, lookupFailure: Option<Error>, t: Table)
  {
    auth.Ok? && lookupFailure.None? && Enabled(t, auth.value.shop)
  }

  /** The record sent for an authenticated webhook. */
  function RecordFor(streamName: string, w: AuthenticatedWebhook, nowMillis: string, receivedAt: string, eventId: string, processedAt: string): PutRecordInput
  {
    PutRecordInput(streamName, RecordBody(Envelope(w, nowMillis, receivedAt), eventId, processedAt), w.shop)
  }

  /** A shop without a row, or whose row is disabled, is never relayed; a removed shop in particular. */
  lemma DisabledShopsAreNotRelayed(w: AuthenticatedWebhook, lookupFailure: Option<Error>, t: Table)
    ensures Relays(Ok(w), lookupFailure, t) <==> lookupFailure.None? && w.shop in t && t[w.shop]
    ensures !Relays(Ok(w), lookupFailure, Removed(t, w.shop))
    ensures !Relays(Ok(w), lookupFailure, WithFlag(t[w.shop := true], w.shop, false))
  {
  }

  /**
   * `action`: `auth` is what `authenticate.webhook` did, `lookupFailure` whether `findUnique`
   * threw, `nowMillis` and `receivedAt` the clock readings of the route, `eventId`, `processedAt`
   * and `answer` those of the send. Every path answers 200; exactly one record is sent when the
   * request is relayed and none otherwise; the settings table is only read.
   */
  method Action(wrapper: StreamWrapper, store: SettingsStore, auth: Outcome<AuthenticatedWebhook>,
                lookupFailure: Option<Error>, nowMillis: string, receivedAt: string,
                eventId: string, processedAt: string, answer: Outcome<PutRecordOutput>)
    returns (response: HttpResponse)
    modifies wrapper.kinesis
    ensures response == Acknowledged
    ensures !Relays(auth, lookupFailure, store.rows) ==> wrapper.kinesis.sent == old(wrapper.kinesis.sent)
    ensures Relays(auth, lookupFailure, store.rows) ==>
      wrapper.kinesis.sent == old(wrapper.kinesis.sent) +
        [PutRecord(RecordFor(wrapper.streamName, auth.value, nowMillis, receivedAt, eventId, processedAt))]
  {
    if auth.Thrown? {
      // the catch-all acknowledges a request that failed authentication
      return Acknowledged;
    }
    var w := auth.value;
    var settings := store.FindUnique(w.shop, lookupFailure);
    if settings.Thrown? {
      return Acknowledged;
    }
    if settings.value.None? || !settings.value.value.isEnabled {
      return Acknowledged;
    }
    var event := Envelope(w, nowMillis, receivedAt);
    var sent := wrapper.SendToKinesis(event, eventId, processedAt, answer);
    // a send that threw is logged and acknowledged like one that succeeded
    response := Acknowledged;
  }
}
