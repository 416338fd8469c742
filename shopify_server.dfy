/**
 * The app configuration of app/shopify.server.ts: the webhook table with its callbacks, and the
 * `afterAuth` hook that subscribes six topics and makes sure the shop has a settings row.
 */
module ShopifyServer {
  import opened Outcomes
  import opened Json
  import opened Platform
  import opened Settings

  /** What a configured callback does: the uninstall callback deletes the shop's row, the rest only log. */
  datatype CallbackAction = DeleteSettings | LogOnly

  /** One entry of the `webhooks` table. */
  datatype WebhookConfig = WebhookConfig(topic: string, deliveryMethod: DeliveryMethod, callbackUrl: string, callback: CallbackAction)

  /** The `webhooks` table, in declaration order. */
  const WebhookConfigs: seq<WebhookConfig> := [
    WebhookConfig("APP_UNINSTALLED", Http, "/webhook", DeleteSettings),
    WebhookConfig("PRODUCTS_CREATE", Http, "/webhook", LogOnly),
    WebhookConfig("PRODUCTS_UPDATE", Http, "/webhook", LogOnly),
    WebhookConfig("PRODUCTS_DELETE", Http, "/webhook", LogOnly),
    WebhookConfig("ORDERS_CREATE", Http, "/webhook", LogOnly),
    WebhookConfig("ORDERS_UPDATED", Http, "/webhook", LogOnly),
    WebhookConfig("ORDERS_CANCELLED", Http, "/webhook", LogOnly)
  ]

  /** The table change a callback makes, when its database call succeeds. */
  function CallbackEffect(action: CallbackAction, t: Table, shop: string): (r: Table)
    ensures action == LogOnly ==> r == t
    ensures action == DeleteSettings ==> shop !in r && AgreeExcept(t, r, shop)
  {
    match action
    case DeleteSettings => Removed(t, shop)
    case LogOnly => t
  }

  /** Only the uninstall callback touches the table; every entry is an HTTP subscription to `/webhook`. */
  lemma OnlyUninstallTouchesSettings(t: Table, shop: string)
    ensures forall i :: 0 <= i < |WebhookConfigs| ==>
      WebhookConfigs[i].deliveryMethod == Http && WebhookConfigs[i].callbackUrl == "/webhook"
    ensures forall i :: 0 <= i < |WebhookConfigs| && WebhookConfigs[i].topic != "APP_UNINSTALLED" ==>
      CallbackEffect(WebhookConfigs[i].callback, t, shop) == t
    ensures WebhookConfigs[0].topic == "APP_UNINSTALLED" && WebhookConfigs[0].callback == DeleteSettings
  {
  }

  /**
   * The library calling `config.callback(topic, shop, body, webhookId)`. The uninstall callback's
   * `deleteMany` is not caught: its error, `deleteFailure`, reaches the caller.
   */
  method InvokeCallback(config: WebhookConfig, shop: string, store: SettingsStore, deleteFailure: Option<Error>)
    returns (r: Outcome<()>)
    modifies store
    ensures config.callback == LogOnly ==> r == Ok(()) && store.rows == old(store.rows)
    ensures config.callback == DeleteSettings && deleteFailure.Some? ==>
      r == Thrown(deleteFailure.value) && store.rows == old(store.rows)
    ensures config.callback == DeleteSettings && deleteFailure.None? ==>
      r == Ok(()) && store.rows == CallbackEffect(DeleteSettings, old(store.rows), shop)
  {
    match config.callback
    case LogOnly =>
      r := Ok(());
    case DeleteSettings =>
      var deleted := store.DeleteMany(shop, deleteFailure);
      if deleted.Thrown? {
        r := Thrown(deleted.error);
      } else {
        r := Ok(());
      }
  }

  /** The `webhookSubscriptionCreate` mutation's variables. */
  datatype SubscriptionCreate = SubscriptionCreate(topic: string, callbackUrl: string)

  /** The admin GraphQL client of the session; `mutations` is every mutation it was asked to run. */
  class AdminApi {
    var mutations: seq<SubscriptionCreate>

    constructor ()
      ensures mutations == []
    {
      mutations := [];
    }

    /** `admin.graphql(webhookSubscriptionCreate, {variables})`, answered by `answer`. */
    method Graphql(request: SubscriptionCreate, answer: Outcome<Json>) returns (r: Outcome<Json>)
      modifies this
      ensures mutations == old(mutations) + [request]
      ensures r == answer
    {
      mutations := mutations + [request];
      r := answer;
    }
  }

  /** `webhookTopics` of `afterAuth`. */
  const AfterAuthTopics: seq<string> :=
    ["PRODUCTS_CREATE", "PRODUCTS_UPDATE", "PRODUCTS_DELETE", "ORDERS_CREATE", "ORDERS_UPDATED", "ORDERS_CANCELLED"]

  /** `${process.env.SHOPIFY_APP_URL}/webhook`: an unset variable interpolates as `undefined`. */
  function SubscriptionUrl(appUrl: Option<string>): (url: string)
    ensures appUrl.Some? ==> url == appUrl.value + "/webhook"
    ensures appUrl.None? ==> url == "undefined/webhook"
  {
    (if appUrl.Some? then appUrl.value else "undefined") + "/webhook"
  }

  /** The mutations `afterAuth` runs: one per topic, in list order, all with the same callback URL. */
  function Subscriptions(appUrl: Option<string>): (s: seq<SubscriptionCreate>)
    ensures |s| == |AfterAuthTopics|
    ensures forall i :: 0 <= i < |s| ==> s[i] == SubscriptionCreate(AfterAuthTopics[i], SubscriptionUrl(appUrl))
  {
    seq(|AfterAuthTopics|, i requires 0 <= i < |AfterAuthTopics| => SubscriptionCreate(AfterAuthTopics[i], SubscriptionUrl(appUrl)))
  }

  /**
   * `afterAuth({session, admin})`: `answers[i]` is what the i-th mutation did, `upsertFailure`
   * whether the upsert threw. Without a shop it does nothing. Otherwise every topic is attempted
   * in order whatever the earlier ones did, then the row is ensured enabled-if-absent, however many
   * attempts failed. The hook has no error exit: everything is caught and logged.
   */
  method AfterAuth(session: Option<Session>, admin: AdminApi, store: SettingsStore, appUrl: Option<string>,
                   answers: seq<Outcome<Json>>, upsertFailure: Option<Error>)
    requires |answers| == |AfterAuthTopics|
    modifies admin, store
    ensures !HasShop(session) ==> admin.mutations == old(admin.mutations) && store.rows == old(store.rows)
    ensures HasShop(session) ==>
      admin.mutations == old(admin.mutations) + Subscriptions(appUrl) &&
      store.rows == (if upsertFailure.None? then Ensured(old(store.rows), session.value.shop, true) else old(store.rows))
  {
    if !HasShop(session) {
      return;
    }
    var shop := session.value.shop;
    var url := SubscriptionUrl(appUrl);
    var i := 0;
    while i < |AfterAuthTopics|
      invariant 0 <= i <= |AfterAuthTopics|
      invariant admin.mutations == old(admin.mutations) + Subscriptions(appUrl)[..i]
      invariant store.rows == old(store.rows)
    {
      // a mutation that throws is logged and the loop goes on
      var response := admin.Graphql(SubscriptionCreate(AfterAuthTopics[i], url), answers[i]);
      assert Subscriptions(appUrl)[..i + 1] == Subscriptions(appUrl)[..i] + [SubscriptionCreate(AfterAuthTopics[i], url)];
      i := i + 1;
    }
    assert Subscriptions(appUrl)[..i] == Subscriptions(appUrl);
    var upserted := store.UpsertEnabled(shop, upsertFailure);
  }
}
