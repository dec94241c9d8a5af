# Siti Stock: combined stock and remote stock sync, in Dafny

This project models the stock core of the Siti Stock WooCommerce plugin:

- **Inventory manager.** A product has a local stock (`_stock`, which may go
  negative after an order) and an external stock kept as product meta
  (`_siti_external_stock`). Every read of a managed product's stock quantity
  shows the *combined* stock, `max(0, local) + max(0, external)`. The stock
  status is overridden to agree with that figure. After an order reduces
  stock, the *rebalancer* moves the shortfall from the external pool into the
  negative local stock of the product that holds the stock. External stock
  entered by an administrator is stored clamped to zero or more.
- **Sync service.** It fetches a JSON array of stock records from the
  configured API and checks the response. It then walks the records in order,
  finds each product by SKU, and updates its quantity, external stock and
  status with one save. It returns a summary `{updated, skipped, errors}`.
- **Sync controller.** It runs a sync for the manual, REST and cron triggers.
  It maps the outcome to a REST response (200 or 400) or to an admin notice.
  It keeps the WP-Cron schedule in line with the auto-sync setting.

Files:

- `wrappers.dfy`: `Option` and `Result`.
- `product_store.dfy`: the WooCommerce product as a heap object. Setters
  stage a change and are counted in `writes`; `Save` is counted in `saves`.
  Also the catalog (is WooCommerce active, the SKU index, the products that
  load by id).
- `inventory_manager.dfy`: the combiner, both filters, the rebalancer and the
  admin clamp.
- `sync_service.dfy`: PHP `trim` and `empty`, the request and the response
  checks, the record model, and the applier. The applier is specified by
  `Summarize` and `ApplyAll` and implemented by a loop.
- `wp_cron.dfy`: WP-Cron as a set of events with the registered recurrences.
- `sync_controller.dfy`: run orchestration, REST and notice mapping, and
  schedule maintenance.

Environment pieces become parameters:

- The HTTP round trip is a function `send: Request -> Response`. A response is
  a transport error or an HTTP status with a body. The body is not JSON, JSON
  that is not an array, or an array of records.
- The current time is `now`, a Unix time (never negative).
- `wc_get_product` is a map from id to product object.

Record fields have three states: `Absent`, `Null` or `Value`. This matters
because the code reads `stock_quantity` and `status` with `isset` but
`external_stock` with `array_key_exists`. So a JSON `null` external stock is
stored as 0, while a `null` quantity leaves local stock alone.

Behaviour of the code that the model keeps:

- PHP `empty` treats `"0"` as empty. So a record whose SKU is `"0"` is skipped
  silently. An endpoint of `"0"` counts as missing. An API key of `"0"` sends
  no `Authorization` header.
- `run_sync` checks the stored endpoint without trimming and has its own
  message ("Stel eerst een API-endpoint in."). The service trims first and uses
  another message ("Geen API-endpoint ingesteld."). An endpoint of blanks
  therefore reaches the service and fails there (`BlankEndpointRefusedByService`).
- An external stock value that is read is clamped at zero. When the rebalancer
  does not act, a negative stored meta value stays as it is.
- The rebalancer checks that the *line's* product manages stock. It then acts
  on the stock holder: the line's own product when it holds its own stock,
  else the product loaded by its managed-by id. It does not check whether the
  holder manages stock.
- A record whose SKU has no product id is skipped with an error naming the
  SKU. A record whose id loads no product is skipped without an error.
- WordPress refuses to schedule an event whose timestamp is not positive or
  whose recurrence is not registered. The schedule methods therefore promise
  exactly one event for the hook when the interval is a registered recurrence,
  and none otherwise. `clear_schedule` loops while `wp_next_scheduled` is truthy
  (not `false`, not 0); WordPress stores only positive timestamps.

## Model

| member | source | states |
|---|---|---|
| `InventoryManager.ExternalStock` | includes/class-siti-stock-inventory-manager.php:199-203 | external stock as read is never negative, and equals the meta value when that is not negative |
| `InventoryManager.CombinedStock` | includes/class-siti-stock-inventory-manager.php:211-217 | combined stock is the external stock plus the local stock when non-negative (plus nothing when negative); it is never negative |
| `InventoryManager.FilterStockQuantity` | includes/class-siti-stock-inventory-manager.php:160-166 | a non-product or unmanaged product gets its stock back unchanged; a managed one reads as combined stock, which is never negative |
| `InventoryManager.FilterStockStatus` | includes/class-siti-stock-inventory-manager.php:175-191 | unmanaged: status unchanged; managed: `instock`/`outofstock` become `instock` exactly when combined stock is positive; every other status is kept |
| `InventoryManager.FilterStockStatusIdempotent` | includes/class-siti-stock-inventory-manager.php:182-190 | applying the status filter twice with the same product gives the same status as once |
| `InventoryManager.BackorderNeverOverridden` | includes/class-siti-stock-inventory-manager.php:182-190 | `onbackorder` is returned unchanged whatever the stock |
| `InventoryManager.Shortage` | includes/class-siti-stock-inventory-manager.php:253 | the stock moved is at most the external stock and at most the local deficit, positive when both exist, and equal to one of them |
| `InventoryManager.RebalanceFields` | includes/class-siti-stock-inventory-manager.php:246-256 | manage-stock and status are kept and local stock never drops; when it acts, local + external is conserved, external ends >= 0, local ends <= 0, and afterwards local >= 0 or external = 0 |
| `InventoryManager.RebalancePools` | includes/class-siti-stock-inventory-manager.php:245-256 | no change iff local >= 0 or external <= 0; otherwise local + external is conserved, external stays >= 0, local never exceeds 0, and afterwards local >= 0 or external = 0; combined stock becomes the net of both pools floored at 0 |
| `InventoryManager.RebalanceIdempotent` | includes/class-siti-stock-inventory-manager.php:249-256 | rebalancing an already rebalanced product changes nothing |
| `InventoryManager.RebalanceExamples` | includes/class-siti-stock-inventory-manager.php:249-256 | (-3, 5) becomes (0, 2); (-10, 4) becomes (-6, 0); (2, 5) is left alone |
| `InventoryManager.StockHolder` | includes/class-siti-stock-inventory-manager.php:233-244 | a holder exists exactly for a managed line product that holds its own stock or whose managed-by id loads; it is that product, or the product loaded by its managed-by id |
| `InventoryManager.RebalanceStockAfterOrderReduction` | includes/class-siti-stock-inventory-manager.php:226-271 | the stock holder's fields become their rebalanced value; one write per changed field and one save only if something changed; nothing happens without a holder |
| `InventoryManager.SaveExternalStockValue` | includes/class-siti-stock-inventory-manager.php:76-90 | a submitted value is staged as external meta clamped to >= 0; no product or no value changes nothing |
| `InventoryManager.SaveVariationExternalStockValue` | includes/class-siti-stock-inventory-manager.php:139-151 | a submitted variation value is stored clamped to >= 0; a missing index changes nothing |
| `InventoryManager.ReservationQueryAgrees` | includes/class-siti-stock-product-data-store.php:30-37 | for every present or missing `_stock` and external meta row, the reservation SQL formula (missing rows read as 0) equals the quantity filter's combined stock |
| `SyncService.Trim` | includes/class-siti-stock-sync-service.php:53 | PHP `trim`: a contiguous slice of the input with only whitespace cut off at both ends, and no whitespace left at either end |
| `SyncService.BlankTrimsToEmpty` | includes/class-siti-stock-sync-service.php:53-55 | a string of whitespace trims to the empty string |
| `SyncService.WithDefaults` | includes/class-siti-stock-sync-service.php:20-30 | every missing setting takes its default (`''`, `''`, `instock`, false); present settings are kept |
| `SyncService.FetchRemoteStock` | includes/class-siti-stock-sync-service.php:52-97 | an empty trimmed endpoint gives `siti_stock_missing_endpoint`; otherwise the result is the check of the response to the built request |
| `SyncService.BuildRequest` | includes/class-siti-stock-sync-service.php:53-68 | fails with `siti_stock_missing_endpoint` iff the trimmed endpoint is empty; otherwise the request goes to the trimmed endpoint with timeout 15 and `Accept: application/json`, and `Authorization: Bearer <trimmed key>` exactly when the key is non-empty |
| `SyncService.CheckResponse` | includes/class-siti-stock-sync-service.php:72-96 | a transport error comes back unchanged; a status outside [200,300) gives `siti_stock_bad_response`; a body that is not a JSON array gives `siti_stock_bad_json`; success exactly for a 2xx array, returning its records |
| `SyncService.MissingEndpointSendsNothing` | includes/class-siti-stock-sync-service.php:53-57 | without an endpoint the fetch gives the same error whatever the network would answer: no request is made |
| `SyncService.FetchUsesOneResponse` | includes/class-siti-stock-sync-service.php:59-96 | with an endpoint, the fetch result is the check of the one response to the built request |
| `SyncService.EffectiveDefaultStatus` | includes/class-siti-stock-sync-service.php:118-120 | the default status is `instock` or `outofstock`; it is the configured one exactly when that is one of the two |
| `SyncService.RecordStatus` | includes/class-siti-stock-sync-service.php:150-151 | a set status is passed through `sanitize_key` and used when the result is one of the three known statuses; otherwise the default |
| `SyncService.Classify` | includes/class-siti-stock-sync-service.php:123-147 | unknown-SKU skip iff the SKU is non-empty and has no product id; update iff the id is non-zero and loads, and then of that id; otherwise a silent skip |
| `SyncService.ApplyRecord` | includes/class-siti-stock-sync-service.php:149-165 | a set quantity turns on stock management and sets local stock unclamped; a present external stock (null read as 0) sets the meta to max(0, value); status always set; exactly one save |
| `SyncService.SanitizeKey` | includes/class-siti-stock-sync-service.php:150 | WordPress `sanitize_key`: the result is no longer than the input and holds only `[a-z0-9_-]`; its value on every string follows from `SanitizeKeyAppend` and the per-character lemmas below |
| `SyncService.SanitizeKeyAppend` | includes/class-siti-stock-sync-service.php:150 | sanitising works character by character: a concatenation sanitises to the concatenation of the sanitised parts |
| `SyncService.SanitizeKeyJoinsKeys` | includes/class-siti-stock-sync-service.php:150 | a stray character between two keys is dropped, so `in stock` reads as `instock` |
| `SyncService.SanitizeKeyDropsOthers` | includes/class-siti-stock-sync-service.php:150 | a character that is neither an ASCII letter nor one of `[a-z0-9_-]` is dropped and the rest is sanitised as if it were absent |
| `SyncService.SanitizeKeyKeepsKeys` | includes/class-siti-stock-sync-service.php:150 | a string made only of `[a-z0-9_-]` is its own key |
| `SyncService.SanitizeKeyIdempotent` | includes/class-siti-stock-sync-service.php:150 | sanitising a key twice gives the key once |
| `SyncService.SanitizeKeyFoldsCase` | includes/class-siti-stock-sync-service.php:150 | on a string of ASCII letters, digits, `_` and `-`, every upper-case letter becomes its lower-case form and nothing is dropped (so `InStock` reads as `instock`) |
| `SyncService.BlankSkuSkippedSilently` | includes/class-siti-stock-sync-service.php:123-127 | a SKU made only of whitespace is skipped without an error |
| `SyncService.TrimKeepsUnpadded` | includes/class-siti-stock-sync-service.php:53 | a string with no whitespace at either end is its own trim |
| `SyncService.Summarize` | includes/class-siti-stock-sync-service.php:112-168 | updated + skipped equals the number of records; there are no more errors than skips |
| `SyncService.UpdatedCountsUpdates` | includes/class-siti-stock-sync-service.php:122-168 | `updated` is the number of records whose SKU finds a loadable product (counted by the separate `Updates`), and `skipped` is every other record |
| `SyncService.ApplyAll` | includes/class-siti-stock-sync-service.php:122-168 | the run touches exactly the products it had; `OneSavePerUpdate` and `ExternalStockStaysNonNegative` state what it does to them |
| `SyncService.ChangesAreSaved` | includes/class-siti-stock-sync-service.php:155-165 | a run never lowers a product's save count, and a product whose state changed was saved at least once more |
| `SyncService.ErrorsNameUnknownSkus` | includes/class-siti-stock-sync-service.php:130-140 | the errors are one message per non-empty SKU with no product id, in record order, and nothing else |
| `SyncService.OneSavePerUpdate` | includes/class-siti-stock-sync-service.php:142-167 | each product is saved once per record that updates it; a product no record updates keeps its state |
| `SyncService.ExternalStockStaysNonNegative` | includes/class-siti-stock-sync-service.php:152-162 | a run never leaves a negative external stock on a product that had none, even when the feed sends a negative value |
| `SyncService.CombinedAfterRecord` | includes/class-siti-stock-sync-service.php:149-162 | a record with quantity 3 and external stock 7 leaves the product with combined stock 10 |
| `SyncService.MixedBatchSummary` | includes/class-siti-stock-sync-service.php:122-168 | records for a known SKU, an empty SKU and an unknown SKU give `{1, 2, [message naming the unknown SKU]}` |
| `SyncService.FetchFailureAppliesNothing` | includes/class-siti-stock-sync-service.php:37-45 | a fetch error is returned as it is and no product changes |
| `SyncService.MissingWooCommerceAppliesNothing` | includes/class-siti-stock-sync-service.php:108-110 | without WooCommerce the applier returns `siti_stock_missing_wc` and no product changes |
| `SyncService.SyncService.Sync` | includes/class-siti-stock-sync-service.php:37-45 | result and product states are those of fetch-then-apply, the applier not running on a fetch error |
| `SyncService.SyncService.ApplyStockUpdates` | includes/class-siti-stock-sync-service.php:107-171 | the loop's summary is `Summarize` of the records and the products end in the `ApplyAll` states (or the missing-WooCommerce error with nothing changed) |
| `SyncService.SyncService.LookUp` | includes/class-siti-stock-sync-service.php:123-147 | the lookup of one record ends in its `Classify` outcome: silent skip, unknown-SKU skip or update of the loaded id |
| `SyncService.SyncService.ApplyRecordTo` | includes/class-siti-stock-sync-service.php:122-168 | one pass of the loop tallies the record's outcome and leaves the products in the `Step` states |
| `SyncService.SyncService.UpdateLoaded` | includes/class-siti-stock-sync-service.php:142-165 | the loaded product ends in the `ApplyRecord` state of its previous state and no other product changes |
| `SyncService.SyncService.UpdateProduct` | includes/class-siti-stock-sync-service.php:155-165 | the product found ends in the `ApplyRecord` state of its previous state |
| `WpCron.Cron.NextScheduled` | includes/class-siti-stock-sync-controller.php:227 | the earliest timestamp scheduled for the hook, or none exactly when the hook has no event |
| `WpCron.Cron.ScheduleEvent` | includes/class-siti-stock-sync-controller.php:193 | an event is added exactly when the timestamp is positive and the recurrence registered; nothing else changes (see the WP-Cron line under "Left out" for an existing event in the same slot) |
| `WpCron.Cron.UnscheduleEvent` | includes/class-siti-stock-sync-controller.php:230 | exactly the event of the hook at that timestamp is removed |
| `SyncController.RunSync` | includes/class-siti-stock-sync-controller.php:112-122 | an empty stored endpoint gives `siti_stock_missing_endpoint` and changes nothing; otherwise the service's sync with the snapshot as settings |
| `SyncController.RunScheduledSync` | includes/class-siti-stock-sync-controller.php:103-105 | the cron trigger leaves the products as a run does |
| `SyncController.BlankEndpointRefusedByService` | includes/class-siti-stock-sync-controller.php:115-121 | any endpoint made only of whitespace that PHP does not call empty passes the controller's check and is refused by the service with its own message, changing nothing |
| `SyncController.EmptyEndpointChangesNothing` | includes/class-siti-stock-sync-controller.php:113-117 | an endpoint PHP calls empty (`""` or `"0"`) ends the run with the controller's error before the service exists |
| `SyncController.RestResponseFor` | includes/class-siti-stock-sync-controller.php:150-167 | status 400 iff the run failed, with body `{error: code, message}`; status 200 iff it succeeded, with the counts and errors unchanged |
| `SyncController.RestSummaryRoundTrip` | includes/class-siti-stock-sync-controller.php:160-167 | the summary can be read back unchanged from a 200 body |
| `SyncController.RestTriggerSync` | includes/class-siti-stock-sync-controller.php:147-168 | the response is the mapping of the run's result, and products end as the run leaves them |
| `SyncController.ManualSyncNotice` | includes/class-siti-stock-sync-controller.php:82-94 | an `error` notice with the error's message iff the run failed; a `success` notice with the updated and skipped counts iff it succeeded |
| `SyncController.HandleManualSync` | includes/class-siti-stock-sync-controller.php:80-94 | the notice is the mapping of the run's result, and products end as the run leaves them |
| `SyncController.RegisterCustomSchedules` | includes/class-siti-stock-sync-controller.php:55-68 | adds a 900-second `siti_stock_quarter_hour` recurrence and keeps the others |
| `SyncController.ClearSchedule` | includes/class-siti-stock-sync-controller.php:226-233 | afterwards no event remains for the hook and every other hook's events are untouched |
| `SyncController.ScheduleSync` | includes/class-siti-stock-sync-controller.php:191-194 | the hook is cleared, then its only event is one a minute from now with the given interval, if that interval is registered |
| `SyncController.HandleSettingsUpdate` | includes/class-siti-stock-sync-controller.php:176-184 | auto-sync off: all events of the hook cleared and none added; on: rescheduled with the interval, `hourly` when none is set |
| `SyncController.MaybeScheduleFromSettings` | includes/class-siti-stock-sync-controller.php:211-219 | auto-sync off: no change at all; on: cleared and rescheduled with the interval passed through `sanitize_key`, `hourly` when none is set |
| `SyncController.ActivationInterval` | includes/class-siti-stock-sync-controller.php:217 | `hourly` when no interval is set; otherwise the set interval passed through `sanitize_key` |
| `SyncController.RescheduledHasOneEventForHook` | includes/class-siti-stock-sync-controller.php:182-194 | after rescheduling, the hook has exactly one event when the interval is registered and none otherwise |

## Left out

- Rendering of the external stock fields, hook registration, menus, notices storage, redirects, permission and nonce checks: user interface and wiring.
- The settings page and its sanitising: the controller receives a settings snapshot as a value.
- HTTP and JSON decoding: the response and the decoded body are abstract values. A JSON object decodes to a PHP array too; the model treats its values as the records, in order. Records that are not objects are not modelled.
- PHP `(int)` and `(string)` casts of arbitrary JSON values and `wc_stock_amount`: record fields are typed values.
- `RecordSku`: `sanitize_text_field` is modelled as `trim` only; its removal of tags, octets and line breaks and its collapsing of inner whitespace are left out, so a SKU containing those is looked up as sent.
- `SanitizeKey`: only ASCII letters are lower-cased, as WordPress does; no other character mapping is involved.
- `WpCron.Cron.ScheduleEvent`: WordPress keys its cron array by timestamp, hook and arguments, so scheduling a hook at a timestamp where it already has an event replaces that event; the model adds a second event instead. Both call sites (includes/class-siti-stock-sync-controller.php:192-193 and :216-218) clear the hook first, so the plugin never reaches that state.
- `WpCron.Cron.UnscheduleEvent`: unscheduling is assumed to succeed. `wp_unschedule_event` can fail (the `cron` option is not written, or a `pre_unschedule_event` filter answers without removing the event); `clear_schedule` (includes/class-siti-stock-sync-controller.php:229-232) ignores the result, and `wp_next_scheduled` then returns the same timestamp again, so the source would loop forever. The termination of `SyncController.ClearSchedule` rests on this assumption.
- Integer width: stock figures are unbounded integers. PHP integers are 64-bit, so `(int)` of a huge quantity, the sum at includes/class-siti-stock-inventory-manager.php:216 and `abs` at :253 near `PHP_INT_MIN` are assumed to stay in range.
- Translation with `__()`: messages are the source's Dutch strings.
- The time of day: `time()` is the parameter `now`.
- `get_next_scheduled_run`: a plain call of `wp_next_scheduled`, modelled as `WpCron.Cron.NextScheduled`.
- Locking between cron, REST and manual runs: the code has none.
- The catalog holds one object per product id (`Catalog.Valid`); that WordPress may load the same row twice as separate objects is not modelled.
