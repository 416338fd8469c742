/** What the commerce platform's SDK hands to a route: sessions, authenticated webhooks, responses. */
module Platform {
  import opened Outcomes
  import opened Json

  /** An OAuth session; only the shop domain matters to the model. */
  datatype Session = Session(shop: string, accessToken: string)

  /** `!session?.shop`: there is no session, or its shop is the empty string. */
  predicate HasShop(session: Option<Session>): (b: bool)
    ensures !b <==> session == None || session.value.shop == ""
  {
    session.Some? && session.value.shop != ""
  }

  /** The result of `authenticate.webhook(request)` once the HMAC check passed. */
  datatype AuthenticatedWebhook = AuthenticatedWebhook(shop: string, topic: string, payload: Json)

  /** How the platform delivers a webhook subscription. */
  datatype DeliveryMethod = Http | EventBridge | PubSub

  /** An HTTP response; the routes send no body. */
  datatype HttpResponse = HttpResponse(status: int)

  /** `new Response(null, {status: 200})` and `new Response()` both answer 200. */
  const Acknowledged := HttpResponse(200)
}
