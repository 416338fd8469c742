/**
 * The installation callback of app/routes/auth.callback.tsx: register the six topics, then
 * make sure the shop has a settings row. Everything after authentication is caught.
 */
module AuthCallback {
  import opened Outcomes
  import opened Json
  import opened Platform
  import opened Settings
  import opened Registration

  /** `webhookTopics`. */
  const CallbackTopics: seq<string> :=
    ["products/create", "products/update", "products/delete", "orders/create", "orders/updated", "orders/cancelled"]

  /** Each topic is registered over HTTP with callback `/webhook`. */
  function CallbackSpecs(): (specs: seq<HandlerSpec>)
    ensures |specs| == |CallbackTopics|
    ensures forall i :: 0 <= i < |specs| ==> specs[i] == HandlerSpec(CallbackTopics[i], Http, "/webhook")
  {
    seq(|CallbackTopics|, i requires 0 <= i < |CallbackTopics| => HandlerSpec(CallbackTopics[i], Http, "/webhook"))
  }

  /**
   * `loader`: `auth` is what `authenticate.callback` did (it is not caught), `answers[i]` what the
   * registration of the i-th topic did, `upsertFailure` whether the upsert threw. It answers
   * `null` whenever authentication returned; `results` is what it logs.
   */
  method Loader(auth: Outcome<Option<Session>>, registry: WebhookRegistry, store: SettingsStore,
                answers: seq<Outcome<Json>>, upsertFailure: Option<Error>)
    returns (r: Outcome<()>, results: seq<RegistrationResult>)
    requires |answers| == |CallbackTopics|
    modifies registry, store
    ensures auth.Thrown? ==> r == Thrown(auth.error)
    ensures auth.Ok? ==> r == Ok(())
    ensures !(auth.Ok? && HasShop(auth.value)) ==>
      results == [] && registry.added == old(registry.added) && store.rows == old(store.rows)
    ensures auth.Ok? && HasShop(auth.value) ==>
      registry.added == old(registry.added) + CallbackSpecs() &&
      results == Results(CallbackSpecs(), answers, false) &&
      store.rows == (if upsertFailure.None? then Ensured(old(store.rows), auth.value.value.shop, true) else old(store.rows))
  {
    if auth.Thrown? {
      return Thrown(auth.error), [];
    }
    var session := auth.value;
    if !HasShop(session) {
      return Ok(()), [];
    }
    var shop := session.value.shop;
    results := RegisterTopics(registry, CallbackSpecs(), answers, false);
    var upserted := store.UpsertEnabled(shop, upsertFailure);
    // an upsert that threw is caught and logged
    r := Ok(());
  }

  /** The results name the six topics in list order, and none is lost when all registrations fail. */
  lemma ResultsCoverTopics(answers: seq<Outcome<Json>>)
    requires |answers| == |CallbackTopics|
    ensures |Results(CallbackSpecs(), answers, false)| == 6
    ensures forall i :: 0 <= i < 6 ==> Results(CallbackSpecs(), answers, false)[i].topic == CallbackTopics[i]
    ensures (forall i :: 0 <= i < 6 ==> answers[i].Thrown?) ==>
      forall i :: 0 <= i < 6 ==> !Results(CallbackSpecs(), answers, false)[i].Success()
  {
  }
}
