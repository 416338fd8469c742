/**
 * The settings-gated event-bus relay of app/routes/webhooks.products.update.tsx. Unlike the
 * stream route it catches nothing: errors of authentication, lookup and send reach the caller.
 */
module ProductsUpdateRoute {
  import opened Outcomes
  import opened Json
  import opened Platform
  import opened Settings

  const ProductsSource := "shopify.products"
  const ProductUpdatedDetailType := "product.updated"

  /** A notification put on the bus: `sendToEventBridge(source, detailType, detail)`. */
  datatype BusEntry = BusEntry(source: string, detailType: string, detail: Fields)

  /** The event bus; `sent` is every notification it was asked to put, in order. */
  class EventBus {
    var sent: seq<BusEntry>

    constructor ()
      ensures sent == []
    {
      sent := [];
    }

    /** One submission, answered by `answer`. */
    method Send(entry: BusEntry, answer: Outcome<()>) returns (r: Outcome<()>)
      modifies this
      ensures sent == old(sent) + [entry]
      ensures r == answer
    {
      sent := sent + [entry];
      r := answer;
    }
  }

  /** `{shop, ...payload}`: the shop merged with the payload's fields, the payload's own `shop` winning. */
  function Detail(shop: string, payload: Json): (d: Fields)
    ensures d.Keys == Spread(payload).Keys + {"shop"}
    ensures forall k :: k in Spread(payload) ==> d[k] == Spread(payload)[k]
    ensures "shop" !in Spread(payload) ==> d["shop"] == JStr(shop)
  {
    map["shop" := JStr(shop)] + Spread(payload)
  }

  /** A payload carrying its own `shop` overrides the authenticated shop in the detail. */
  lemma PayloadShopWins(shop: string, fields: Fields, other: Json)
    requires "shop" in fields && fields["shop"] == other
    ensures Detail(shop, JObj(fields))["shop"] == other
    ensures Detail(shop, JObj(fields)) == fields
  {
  }

  /**
   * `action`: `auth` is what `authenticate.webhook` did, `lookupFailure` whether `findUnique`
   * threw, `answer` what the bus did. The bus is called exactly when the shop's row is enabled.
   */
  method Action(bus: EventBus, store: SettingsStore, auth: Outcome<AuthenticatedWebhook>,
                lookupFailure: Option<Error>, answer: Outcome<()>)
    returns (r: Outcome<HttpResponse>)
    modifies bus
    ensures auth.Thrown? ==> r == Thrown(auth.error) && bus.sent == old(bus.sent)
    ensures auth.Ok? && lookupFailure.Some? ==> r == Thrown(lookupFailure.value) && bus.sent == old(bus.sent)
    ensures auth.Ok? && lookupFailure.None? && !Enabled(store.rows, auth.value.shop) ==>
      r == Ok(Acknowledged) && bus.sent == old(bus.sent)
    ensures auth.Ok? && lookupFailure.None? && Enabled(store.rows, auth.value.shop) ==>
      bus.sent == old(bus.sent) + [BusEntry(ProductsSource, ProductUpdatedDetailType, Detail(auth.value.shop, auth.value.payload))] &&
      r == (if answer.Thrown? then Thrown(answer.error) else Ok(Acknowledged))
  {
    if auth.Thrown? {
      return Thrown(auth.error);
    }
    var w := auth.value;
    var settings := store.FindUnique(w.shop, lookupFailure);
    if settings.Thrown? {
      return Thrown(settings.error);
    }
    if settings.value.Some? && settings.value.value.isEnabled {
      var sent := bus.Send(BusEntry(ProductsSource, ProductUpdatedDetailType, Detail(w.shop, w.payload)), answer);
      if sent.Thrown? {
        return Thrown(sent.error);
      }
    }
    r := Ok(Acknowledged);
  }
}
