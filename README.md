# Shopify-to-Kinesis webhook relay: a Dafny model

This project models the sequential logic of a Shopify app that forwards shop webhooks to an AWS
Kinesis data stream and to an EventBridge bus. It models the app's own code, not the SDK calls
around it:

- **Stream wrapper** (`app/aws.server.ts`). This covers the start-up check for missing environment
  variables and the stream-name default. It builds the single record in `sendToKinesis` (the body is
  `{id: generated, ...event, processedAt}` and the partition key is the shop) and one record per event
  in `sendBatchToKinesis`, in order. It also covers the success and failure counts of a batch answer and
  its list of failed records. Both send functions return the service's answer unchanged, or rethrow its
  error unchanged.
- **Stream relay route** (`app/routes/webhook.tsx`). The route authenticates the request, looks up the
  shop's `isEnabled` flag, builds the event and sends it. It answers 200 on every path, including
  errors.
- **Event-bus route** (`app/routes/webhooks.products.update.tsx`). This route checks the same flag and
  then sends `{shop, ...payload}` to the bus. It catches nothing.
- **Settings table** (`IntegrationSettings`, one `isEnabled` flag per shop): insert-if-absent on
  installation (`shopify.server.ts`, `auth.callback.tsx`), delete on uninstall, get-or-create in the
  settings screen's loader, and a flag update from form text in its action (`app._index.tsx`).
- **Webhook registration loops**. `afterAuth` (`shopify.server.ts`), the installation callback
  (`auth.callback.tsx`) and `registerWebhooks` (`webhooks.server.ts`) each register topics from a fixed
  list. A failure on one topic does not affect the others.

Every external collaborator is a class whose state records what it was asked to do:
`Kinesis.KinesisClient.sent`, `ProductsUpdateRoute.EventBus.sent`,
`Registration.WebhookRegistry.added`, `ShopifyServer.AdminApi.mutations` and
`Settings.SettingsStore.rows`. What the service answers is not decided by the app, so each call is
given its answer as a parameter: `Outcome<T>`, either `Ok(value)` or `Thrown(error)`. A database
call takes `failure: Option<Error>`; when it is `Some`, the call throws and the table is unchanged.
Generated ids, `Date.now()` and ISO timestamps are also parameters.

The Prisma behaviour the routes depend on is modelled as follows:
- `create` throws a unique-constraint error when the row exists.
- `update` throws record-not-found when it does not.
- `upsert` with `update: {}` leaves an existing row as it is.
- `create({data: {shop}})` gives the row the schema's default flag, `Settings.DefaultEnabled`
  (assumed `true`, see "Left out").

Two behaviours of the code are worth knowing when reading the model:
- The generated `evt_` id never reaches the stream. `...event` comes after it and overwrites it with
  the caller's `id` (`KinesisRecords.GeneratedIdIsOverridden`; for the stream route the stored id is
  `topic + "_" + Date.now()`, see `WebhookRoute.StoredBodyOfWebhook`). The model follows the code.
- The `index` of a failed-records entry is its rank among the failures, not the record's position
  (see Findings).

## Model

| member | source | states |
|---|---|---|
| AwsConfig.Unset | app/aws.server.ts:20-27 | `!value` and the logical-or fallback: a variable counts as set exactly when it is present and non-empty |
| AwsConfig.MissingAmong | app/aws.server.ts:19-21 | a name is reported iff it is one of the names and its value is unset or empty; the report keeps the names' order and adds no duplicates |
| AwsConfig.MissingVars | app/aws.server.ts:11-21 | `missingVars` is exactly the unset or empty required variables, in declaration order, at most four, without duplicates |
| AwsConfig.MissingVarsExtremes | app/aws.server.ts:19-21 | all four set and non-empty gives an empty report; none set gives all four, in order |
| AwsConfig.StreamName | app/aws.server.ts:27 | `STREAM_NAME` is never empty; it is `shopify-events-stream` exactly when the variable is unset or empty, and the configured value otherwise |
| AwsConfig.StreamNameAgreesWithMissingVars | app/aws.server.ts:10-27 | the default is used exactly when the stream variable is reported missing; otherwise the configured non-empty value is used |
| KinesisRecords.EventFields | app/aws.server.ts:151 | `...event` copies exactly the event's five fields `id`, `topic`, `shop`, `payload`, `timestamp`, with the event's values |
| KinesisRecords.RecordBody | app/aws.server.ts:149-153 | the body has exactly the event's fields plus `processedAt`, with the event's values |
| KinesisRecords.GeneratedIdIsOverridden | app/aws.server.ts:138-153 | the body's `id` is the caller's `event.id`, and the body does not depend on the generated `evt_` id |
| KinesisRecords.BatchEntries | app/aws.server.ts:199-206 | one record per event, in order; record i has partition key `events[i].shop` and the body of `events[i]` |
| KinesisRecords.BatchKeepsCallerIds | app/aws.server.ts:199-206 | every batch record keeps its own event's id and shop |
| KinesisRecords.HasErrorCode | app/aws.server.ts:220-227 | `r.ErrorCode` is falsy exactly when it is absent or the empty string |
| KinesisRecords.Failed | app/aws.server.ts:221 | every kept record is a record of the answer with a truthy error code (that all of them are kept, in order, is `FiltersPartitionRecords` and `FailedInBatchOrder`) |
| KinesisRecords.Succeeded | app/aws.server.ts:220 | every kept record is a record of the answer without a truthy error code (that all of them are kept is `FiltersPartitionRecords`) |
| KinesisRecords.FiltersPartitionRecords | app/aws.server.ts:220-221 | the failures and the successes together hold every record of the answer exactly as often as the answer does |
| KinesisRecords.CountsPartitionRecords | app/aws.server.ts:218-224 | `successCount + failureCount == Records.length` |
| KinesisRecords.FailedRecordsAsWritten | app/aws.server.ts:227-232 | as written, `failedRecords` has `failureCount` entries with indices 0, 1, ... in order, each with a truthy error code and its failure's code and message |
| KinesisRecords.FailureIndexIsRankNotPosition | app/aws.server.ts:227-232 | for three records with the middle one rejected, the code reports index 0 while the record is at position 1 |
| KinesisRecords.FailedRecords | app/aws.server.ts:227-232 | corrected list: `failureCount` entries, each at a failed record's position, with that record's code and message, positions strictly increasing |
| KinesisRecords.FailedRecordsFromSound | app/aws.server.ts:227-232 | every entry of the corrected list of a slice names a failure of that slice, and positions increase |
| KinesisRecords.FailedRecordsExact | app/aws.server.ts:227-232 | a position appears in the corrected list iff its record has a truthy error code |
| KinesisRecords.FailedRecordsCover | app/aws.server.ts:227-232 | for every batch position at once: it is listed in the corrected list iff its record has a truthy error code |
| KinesisRecords.FailedInBatchOrder | app/aws.server.ts:221 | the j-th failure is the record at the j-th listed position: the filter keeps the failed records in batch order |
| KinesisRecords.FilterLengthsArePositionCounts | app/aws.server.ts:220-221 | the numbers of failures and successes are the numbers of batch positions with and without a truthy error code |
| KinesisRecords.CorrectedAgreesWithFailed | app/aws.server.ts:227-232 | the corrected list and the as-written list carry the same codes and messages in the same order |
| KinesisRecords.Report | app/aws.server.ts:218-240 | the corrected accounting: with `Records` present, `successCount` and `failureCount` are, as logged, the numbers of positions without and with a truthy error code and add up to the number of records; the corrected failure list (not the logged, rank-indexed one) names every failed position exactly once, in increasing order, with its code and message; without `Records` nothing is counted |
| KinesisRecords.ReportOfMiddleRejection | app/aws.server.ts:218-240 | the corrected accounting of three records with the middle one rejected: 2 successes and 1 failure, as logged, and a corrected failure entry at position 1 (the code logs index 0) |
| Kinesis.KinesisClient.SendPutRecord | app/aws.server.ts:157-161 | one `PutRecordCommand` is issued, and its answer is passed back |
| Kinesis.KinesisClient.SendPutRecords | app/aws.server.ts:208-215 | one `PutRecordsCommand` is issued, and its answer is passed back |
| Kinesis.StreamWrapper.constructor | app/aws.server.ts:11-45 | the wrapper's stream name and missing-variable report are the ones computed from the environment |
| Kinesis.StreamWrapper.SendToKinesis | app/aws.server.ts:137-188 | exactly one record is sent, to `STREAM_NAME`, partitioned by `event.shop`, with the merged body; the answer is returned, or its error rethrown, unchanged |
| Kinesis.StreamWrapper.SendBatchToKinesis | app/aws.server.ts:191-254 | exactly one batch command is sent, holding one record per event in order; the answer or its error is passed through unchanged; on success the report is the answer's accounting |
| Platform.HasShop | app/shopify.server.ts:118 | `!session?.shop` holds exactly when there is no session or its shop is empty |
| Settings.Enabled | app/routes/webhook.tsx:39 | `settings?.isEnabled` is falsy exactly when there is no row or its flag is false |
| Settings.Ensured | app/shopify.server.ts:178-185 | insert-if-absent: the shop has a row afterwards; an existing row is unchanged, an absent one gets the flag; other shops are unchanged |
| Settings.Removed | app/shopify.server.ts:31-33 | the shop's row is gone and every other shop's row is unchanged |
| Settings.WithFlag | app/routes/app._index.tsx:39-42 | only the shop's flag changes, to the given value; the set of rows stays the same |
| Settings.EnsuredIdempotent | app/routes/app._index.tsx:21-29 | get-or-create twice leaves the same table as once |
| Settings.EnsuredCreatesAtMostOne | app/routes/app._index.tsx:21-29 | get-or-create adds at most one row |
| Settings.UninstallThenReinstall | app/shopify.server.ts:29-33 | a removed shop is not enabled; reinstalling enables it again; other shops are untouched |
| Settings.SettingsStore.FindUnique | app/routes/webhook.tsx:35-37 | the lookup returns the shop's row iff it exists, or throws the database's error |
| Settings.SettingsStore.Create | app/routes/app._index.tsx:26-28 | adds the row with the default flag; throws and changes nothing if the row exists or the database fails |
| Settings.SettingsStore.Update | app/routes/app._index.tsx:39-42 | sets only that shop's flag; throws record-not-found and changes nothing if the row is absent |
| Settings.SettingsStore.UpsertEnabled | app/shopify.server.ts:178-185 | creates `isEnabled = true` for an absent shop and leaves an existing row unchanged |
| Settings.SettingsStore.DeleteMany | app/shopify.server.ts:31-33 | removes the shop's row, reports 0 or 1 deleted, and changes nothing else |
| WebhookRoute.Envelope | app/routes/webhook.tsx:45-51 | the event carries the authenticated shop, topic and payload, the receive time, and the id `topic + "_" + Date.now()` |
| WebhookRoute.StoredBodyOfWebhook | app/routes/webhook.tsx:45-51 | the body stored on the stream has id `topic + "_" + Date.now()`, plus the authenticated shop, topic and payload and the two timestamps |
| WebhookRoute.DisabledShopsAreNotRelayed | app/routes/webhook.tsx:35-42 | a request is relayed iff the lookup answered and the shop's row is enabled; a removed or disabled shop is never relayed |
| WebhookRoute.Action | app/routes/webhook.tsx:7-81 | the status is 200 on every path; with auth or lookup failure, or an absent or disabled row, nothing is sent; otherwise exactly one record built from the authenticated values is sent, and a failed send is swallowed |
| ProductsUpdateRoute.EventBus.Send | app/routes/webhooks.products.update.tsx:15-22 | one notification is put on the bus, and its answer is passed back |
| Json.Spread | app/routes/webhooks.products.update.tsx:18-21 | `...payload` copies an object's fields and nothing from a non-object (see "Left out" for strings and arrays) |
| ProductsUpdateRoute.Detail | app/routes/webhooks.products.update.tsx:18-21 | the detail holds the payload's fields plus `shop`; payload keys win, and `shop` is the authenticated shop only when the payload has none |
| ProductsUpdateRoute.PayloadShopWins | app/routes/webhooks.products.update.tsx:18-21 | a payload carrying `shop` overrides the authenticated shop |
| ProductsUpdateRoute.Action | app/routes/webhooks.products.update.tsx:6-26 | the bus is called iff an enabled row exists, with source `shopify.products` and detail-type `product.updated`; disabled answers 200 and sends nothing; authentication, lookup and send errors propagate |
| Registration.WebhookRegistry.AddHandlers | app/webhooks.server.ts:28-35 | one handler registration is recorded, and its answer is passed back |
| Registration.ResultFor | app/webhooks.server.ts:27-60 | one registration's result names its topic; it is a success iff `addHandlers` did not throw; a success keeps the response when asked to, a failure keeps the error message |
| Registration.Results | app/webhooks.server.ts:26-61 | one result per topic, in order, with a matching topic; success iff the registration did not throw; a failure carries the error message |
| Registration.ResultsAreIsolated | app/webhooks.server.ts:27-60 | a topic's result depends only on its own registration |
| Registration.RegisterTopics | app/webhooks.server.ts:25-62 | every spec is attempted in order; throwing ones are recorded as failed and the loop goes on |
| Registration.SpecsFor | app/webhooks.server.ts:28-35 | each registration uses its entry's topic and delivery method, with callback `/webhook` |
| Registration.RegisterWebhooks | app/webhooks.server.ts:22-64 | three results, one per `WEBHOOKS` entry in order; success iff `addHandlers` did not throw; the response or the error message is kept; nothing is thrown |
| AuthCallback.CallbackSpecs | app/routes/auth.callback.tsx:19-39 | the six topics in list order, each over HTTP to `/webhook` |
| AuthCallback.Loader | app/routes/auth.callback.tsx:7-81 | returns null whenever authentication returned; with no shop it registers nothing and leaves the table alone; otherwise it registers the six topics in order with one result each, then creates the row with `isEnabled = true` if absent, and a failed upsert is caught |
| AuthCallback.ResultsCoverTopics | app/routes/auth.callback.tsx:30-56 | six results naming the six topics in order; when every registration throws, all six are recorded as failures |
| ShopifyServer.CallbackEffect | app/shopify.server.ts:25-108 | a logging callback leaves the table unchanged; the uninstall callback removes only that shop's row |
| ShopifyServer.OnlyUninstallTouchesSettings | app/shopify.server.ts:25-108 | every configured webhook is HTTP to `/webhook`, and only `APP_UNINSTALLED` changes the settings table |
| ShopifyServer.InvokeCallback | app/shopify.server.ts:29-34 | the uninstall callback deletes the shop's row, or propagates the delete's error; product and order callbacks change nothing |
| ShopifyServer.AdminApi.Graphql | app/shopify.server.ts:136-161 | one subscription mutation is recorded, and its answer is passed back |
| ShopifyServer.SubscriptionUrl | app/shopify.server.ts:158 | the callback URL is the app URL followed by `/webhook`, or `undefined/webhook` when the URL is unset |
| ShopifyServer.Subscriptions | app/shopify.server.ts:125-161 | one mutation per topic of the six, in list order, all with the same callback URL |
| ShopifyServer.AfterAuth | app/shopify.server.ts:110-199 | with no session shop nothing happens; otherwise all six topics are attempted in order whatever fails; then the row is created enabled if absent, and an upsert failure is absorbed |
| AppIndex.FormGet | app/routes/app._index.tsx:37 | `formData.get` returns the value of the first field with the name, or null iff no field has it |
| AppIndex.ParseEnabled | app/routes/app._index.tsx:37 | the flag is true iff the first field named `enabled` exists and reads exactly `"true"` |
| AppIndex.ParseEnabledExact | app/routes/app._index.tsx:37 | the flag is true iff the first `enabled` field is exactly `"true"`; `"TRUE"`, `"1"` and a missing field give false |
| AppIndex.BoolText | app/routes/app._index.tsx:53 | `toString()` of a boolean gives `"true"` exactly for true and `"false"` exactly for false |
| AppIndex.ToggleForm | app/routes/app._index.tsx:51-55 | the toggle submits a single `enabled` field, which parses to the negation of the current flag |
| AppIndex.ToggleFlipsStoredFlag | app/routes/app._index.tsx:37-55 | a toggle followed by the action flips the stored flag and leaves every other row alone |
| AppIndex.Loader | app/routes/app._index.tsx:18-32 | on success the shop has a row; an existing row is returned unchanged; an absent one is created with the default flag; errors propagate |
| AppIndex.Action | app/routes/app._index.tsx:34-45 | stores the parsed flag for the session shop only; an absent row throws record-not-found; errors propagate |

## Findings

| source | as written | input that shows it | evidently intended | confidence | as-written member | corrected member |
|---|---|---|---|---|---|---|
| app/aws.server.ts:227-232 | `index` of a failed-record entry is `i` of `.map((r, i) => ...)` after the `filter`: the rank among the failures | three records where only the middle one is rejected: the logged entry says index 0, but the rejected record is at position 1 | the index of the rejected record in the batch, so that the failed records can be identified and resubmitted | not executed; high | KinesisRecords.FailedRecordsAsWritten (exhibited by KinesisRecords.FailureIndexIsRankNotPosition) | KinesisRecords.FailedRecords (used by KinesisRecords.Report; exhibited by KinesisRecords.ReportOfMiddleRejection) |

## Left out

- Kinesis.StreamWrapper.SendBatchToKinesis, KinesisRecords.Report, KinesisRecords.ReportOfMiddleRejection: the batch accounting uses the corrected failure list (`FailedRecords`), not the rank-indexed list the code logs. The counts are as logged; the as-written list is `FailedRecordsAsWritten` (see Findings).
- Logging is left out as output: the `console.log`/`console.error` calls themselves, the header dump and body preview in `webhook.tsx`, and the decision to log the failed-records list only when it is non-empty. Two logged values are modelled as out-parameters instead: `Kinesis.StreamWrapper.SendBatchToKinesis` returns the batch accounting it logs (`report`, app/aws.server.ts:218-239), and `AuthCallback.Loader` returns the registration results (`results`, app/routes/auth.callback.tsx:56). The code logs them only after a successful upsert (app/routes/auth.callback.tsx:68-71); the model returns them whether or not the upsert throws.
- The Prisma schema is not part of this model. `Settings.DefaultEnabled` assumes the schema's default for `isEnabled` is `true`; `create({data: {shop}})` in app/routes/app._index.tsx:26-28 relies on that default, and nothing in the app's code fixes it.
- `verifyKinesisStream`, `testKinesisConnection`, the start-up self-test and the diagnostic route `app/routes/aws-test.tsx` are left out. They are connectivity probes into the stream service.
- The settings screen's JSX, `app/routes/_index/route.tsx` and `app/routes/auth.$.tsx` are not part of this model. They are UI, routing and a duplicate installation route.
- Signature checking, the platform's session handling, the database engine and the stream and bus services are left out. They are external. Each call's result is an input to the model.
- Clocks, the random id suffix and `performance.now()` durations are left out. They become opaque string inputs or are dropped.
- `JSON.stringify` and `Buffer.from` are left out: a body is a field map, and the key order of the serialized text is not modelled. JSON numbers are integers here, not floating point.
- Spreading a string or array payload copies its index keys in JavaScript. The model treats such a payload, like any other non-object, as contributing no fields.
- The `Promise.all` concurrency in `auth.callback.tsx` and `webhooks.server.ts` is left out. Registrations are modelled in list order, which is the order of the results.
- `sendToEventBridge` is imported from a module that does not define it, and `auth.callback.tsx` uses `shopify` without importing it. Both are modelled as abstract calls with an arbitrary answer. A missing binding shows up as every call throwing, which the model admits as an input.
- GraphQL `userErrors` in a subscription answer are not inspected, as in the code: the attempt counts as done.
- The `as ShopifyEventType` casts are unchecked in the code, so topics are plain strings in the model.
- The Kinesis client's region and credentials configuration is left out. It is external SDK setup.
- `PutRecordsOutput.FailedRecordCount` is carried but unused, as in the code.
