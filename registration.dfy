/**
 * Per-topic webhook registration with per-topic failure isolation (app/webhooks.server.ts),
 * shared with the installation callback of app/routes/auth.callback.tsx. The concurrent
 * `Promise.all` over the topics is modelled as a loop in list order, which is the order of its results.
 */
module Registration {
  import opened Outcomes
  import opened Json
  import opened Platform

  /** The single handler passed to `addHandlers({[topic]: [{deliveryMethod, callbackUrl}]})`. */
  datatype HandlerSpec = HandlerSpec(topic: string, deliveryMethod: DeliveryMethod, callbackUrl: string)

  /** The SDK's webhook handler registry; `added` is every registration it was asked for, in order. */
  class WebhookRegistry {
    var added: seq<HandlerSpec>

    constructor ()
      ensures added == []
    {
      added := [];
    }

    /** `shopify.api.webhooks.addHandlers(...)` for one topic, answered by `answer`. */
    method AddHandlers(spec: HandlerSpec, answer: Outcome<Json>) returns (r: Outcome<Json>)
      modifies this
      ensures added == old(added) + [spec]
      ensures r == answer
    {
      added := added + [spec];
      r := answer;
    }
  }

  /** One element of `results`: `{topic, success: true, result?}` or `{topic, success: false, error}`. */
  datatype RegistrationResult = Registered(topic: string, result: Option<Json>) | Unregistered(topic: string, error: string)
  {
    /** The `success` field. */
    predicate Success()
    {
      Registered?
    }
  }

  /** The result the `try`/`catch` around one registration yields; `keepResult` says whether it records the response. */
  function ResultFor(topic: string, answer: Outcome<Json>, keepResult: bool): (r: RegistrationResult)
    ensures r.topic == topic
    ensures r.Success() <==> answer.Ok?
    ensures answer.Ok? ==> r.result == (if keepResult then Some(answer.value) else None)
    ensures answer.Thrown? ==> r.error == answer.error.message
  {
    match answer
    case Ok(response) => Registered(topic, if keepResult then Some(response) else None)
    case Thrown(e) => Unregistered(topic, e.message)
  }

  /** The results of registering `specs` in turn, the i-th registration answered by `answers[i]`. */
  function Results(specs: seq<HandlerSpec>, answers: seq<Outcome<Json>>, keepResult: bool): (rs: seq<RegistrationResult>)
    requires |answers| == |specs|
    ensures |rs| == |specs|
    ensures forall i :: 0 <= i < |specs| ==>
      rs[i].topic == specs[i].topic &&
      (rs[i].Success() <==> answers[i].Ok?) &&
      (answers[i].Thrown? ==> rs[i].error == answers[i].error.message)
  {
    seq(|specs|, i requires 0 <= i < |specs| => ResultFor(specs[i].topic, answers[i], keepResult))
  }

  /** A topic's result depends on its own registration only: other topics' failures do not change it. */
  lemma ResultsAreIsolated(specs: seq<HandlerSpec>, answers: seq<Outcome<Json>>, others: seq<Outcome<Json>>, keepResult: bool, i: nat)
    requires |answers| == |specs| && |others| == |specs| && i < |specs|
    requires answers[i] == others[i]
    ensures Results(specs, answers, keepResult)[i] == Results(specs, others, keepResult)[i]
  {
  }

  /**
   * Registers each spec in turn; a registration that throws is recorded as failed and the loop
   * goes on. Every spec is attempted, in order, and nothing is thrown.
   */
  method RegisterTopics(registry: WebhookRegistry, specs: seq<HandlerSpec>, answers: seq<Outcome<Json>>, keepResult: bool)
    returns (results: seq<RegistrationResult>)
    requires |answers| == |specs|
    modifies registry
    ensures registry.added == old(registry.added) + specs
    ensures results == Results(specs, answers, keepResult)
  {
    results := [];
    var i := 0;
    while i < |specs|
      invariant 0 <= i <= |specs|
      invariant registry.added == old(registry.added) + specs[..i]
      invariant |results| == i
      invariant forall j :: 0 <= j < i ==> results[j] == ResultFor(specs[j].topic, answers[j], keepResult)
    {
      var out := registry.AddHandlers(specs[i], answers[i]);
      var result;
      if out.Ok? {
        result := Registered(specs[i].topic, if keepResult then Some(out.value) else None);
      } else {
        result := Unregistered(specs[i].topic, out.error.message);
      }
      results := results + [result];
      assert specs[..i + 1] == specs[..i] + [specs[i]];
      i := i + 1;
    }
    assert specs[..i] == specs;
  }

  /** One element of `WEBHOOKS`. */
  datatype WebhookEntry = WebhookEntry(topic: string, deliveryMethod: DeliveryMethod)

  /** `WEBHOOKS`. */
  const Webhooks: seq<WebhookEntry> := [
    WebhookEntry("products/create", Http),
    WebhookEntry("products/update", Http),
    WebhookEntry("products/delete", Http)
  ]

  /** The registration asked for each entry: its own topic and delivery method, callback `/webhook`. */
  function SpecsFor(entries: seq<WebhookEntry>): (specs: seq<HandlerSpec>)
    ensures |specs| == |entries|
    ensures forall i :: 0 <= i < |entries| ==>
      specs[i] == HandlerSpec(entries[i].topic, entries[i].deliveryMethod, "/webhook")
  {
    seq(|entries|, i requires 0 <= i < |entries| => HandlerSpec(entries[i].topic, entries[i].deliveryMethod, "/webhook"))
  }

  /**
   * `registerWebhooks(shop, accessToken)`: one result per entry of `WEBHOOKS`, in order, each
   * successful iff its registration did not throw; it never throws. `shop` and `accessToken`
   * are only logged.
   */
  method RegisterWebhooks(shop: string, accessToken: string, registry: WebhookRegistry, answers: seq<Outcome<Json>>)
    returns (results: seq<RegistrationResult>)
    requires |answers| == |Webhooks|
    modifies registry
    ensures registry.added == old(registry.added) + SpecsFor(Webhooks)
    ensures |results| == |Webhooks| == 3
    ensures forall i :: 0 <= i < |Webhooks| ==>
      results[i].topic == Webhooks[i].topic &&
      (results[i].Success() <==> answers[i].Ok?) &&
      (answers[i].Ok? ==> results[i].result == Some(answers[i].value)) &&
      (answers[i].Thrown? ==> results[i].error == answers[i].error.message)
  {
    results := RegisterTopics(registry, SpecsFor(Webhooks), answers, true);
  }
}
