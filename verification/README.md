# Webhook ingestion core, modelled in Dafny

This project models the ingestion pipeline of a multi-tenant storefront-analytics backend.
Signed commerce-platform webhooks arrive on `POST /webhooks/shopify`. A tenant middleware
resolves the storefront, and the controller checks the headers and the HMAC and enqueues one
job. A queue worker then dispatches the job by topic to one of three materializer handlers.
Each handler upserts rows of four tenant-scoped tables: customers, orders, products and
checkouts. Each table is uniquely keyed by `(tenant_id, String(external id))`.

The defining rule is in the order handler. After upserting the customer and the order, it
recomputes the customer's `total_spend` and `orders_count` from the order table instead of
incrementing them. That is what makes redelivery idempotent.

Modules:

- `Values` (`values.dfy`): `Option`, `Result`, and `Field`. A `Field` is a JSON member that is
  absent, `null` or a value. The module also holds the two Prisma write rules. In an `update`, an
  `undefined` member leaves the column unchanged and `null` clears it. In a `create`, both leave
  a nullable column empty.
- `Ids` (`ids.dfy`): `String(id)` for numeric, string, `null` and missing ids. It proves that
  numeric ids map to distinct keys, and that a number and its canonical decimal text share one.
- `Tables` (`tables.dfy`): tables as entry lists with `Find` (`findUnique`) and `Put` (the write
  half of an upsert). It proves the unique constraint is kept, and that rewriting a key replaces
  the old row.
- `Ingestion` (`ingestion.dfy`): rows, payloads, the order aggregates `Spend` and `Count`, and
  the three handlers as pure functions. A failing handler returns `Err` and no state, which
  models the rolled-back transaction.
- `IngestionProperties` (`ingestion_properties.dfy`): frames, tenant isolation, redelivery
  idempotence, the customer-totals invariant, its counterexample, and an end-to-end
  two-order scenario.
- `Worker` (`queue.dfy`): topic dispatch and the job outcome.
- `Tenancy` (`tenancy.dfy`): the tenant middleware.
- `Intake` (`intake.dfy`): the controller, the composed route and the enqueue.

Modelling choices:

- Prices are `real`. That is exact, like `Prisma.Decimal`.
- A customer row's identity is its key. The `(tenant_id, shopify_id)` unique constraint makes
  the database id a function of that key, so `Order.customer` holds the owner's key.
- HMAC-SHA256 followed by base64 is the function parameter `sign`, left uninterpreted.
- The raw body is the byte sequence the JSON parser captured (`backend/src/app.ts` lines 12-16).
  It is `None` when no parser ran.
- The tenant table is two partial maps, one by id and one by shop domain, plus a `reachable`
  flag. When the flag is false, every lookup throws.
- An enqueue that throws is the boolean parameter `queueAccepts`.
- A header counts as present when it is a non-empty string. This matches JavaScript
  truthiness.

Behaviour of the code worth noting:

- The signature is computed with one process-wide secret, `SHOPIFY_API_SECRET`, for every
  tenant.
- The signature is compared with the ordinary string inequality `!==`.
- The middleware runs before the controller. The controller then checks headers (400), the
  signature (401) and the tenant (401), in that order.
- The global invariant "every customer's totals equal the aggregate of its orders" holds only
  under a condition. When an existing order is delivered again with a different customer, the
  order keeps its first owner, and only the payload's customer is recomputed. Re-attributing an
  existing order at a different price therefore leaves the first owner's totals stale. `TotalsPreserved` states the invariant with the condition "the order is
  new or already owned by the payload's customer". `StaleTotalsCounterexample` exhibits the
  failure on a two-row state.

## Model

| member | source | states |
|---|---|---|
| Ids.NatToStringInjective | backend/src/services/ingestionService.ts:56 | distinct non-negative numeric ids are converted by `String` to distinct texts |
| Ids.NumericKeysInjective | backend/src/services/ingestionService.ts:53-57 | two numeric ids, negative ones included, address the same row only when they are the same number |
| Ids.NatToString | backend/src/services/ingestionService.ts:56 | the decimal text `String` gives a natural number is canonical (digits only, no leading zero) and reads back, digit by digit from the left, as that number |
| Ids.CanonicalIsNotation | backend/src/services/ingestionService.ts:56 | every canonical digit string is the decimal text of the number it denotes, so decimal notation is a bijection between naturals and canonical digit strings |
| Ids.NumberAndTextShareKey | backend/src/services/ingestionService.ts:56 | a text id written as a canonical digit string and the numeric id it denotes address the same row, because keys are `String(id)` |
| Ids.IdString | backend/src/services/ingestionService.ts:19 | `String(id)`: a number becomes text whose first character is `-` exactly for negatives and whose digits read back as the number's magnitude; text stays unchanged |
| Tables.Find | backend/src/services/ingestionService.ts:27-31 | the lookup by composite key finds a row exactly when some entry carries that key, and what it returns is a row stored under that key |
| Tables.Put | backend/src/services/ingestionService.ts:26-31 | after an upsert under a key, that key holds the new row and every other key holds what it held before |
| Tables.PutKeepsUnique | backend/src/services/ingestionService.ts:27-31 | an upsert never creates a second row for an existing `(tenant, external id)` key |
| Tables.PutPut | backend/src/services/ingestionService.ts:96-102 | a second write under the same key fully replaces the first, as the totals update does after the customer upsert |
| Tables.PutFound | backend/src/services/ingestionService.ts:52-63 | writing back the row a key already holds leaves the table unchanged |
| Ingestion.Spend | backend/src/services/ingestionService.ts:83-99 | the summed `total_price` of the tenant's orders owned by the customer, 0 when there are none; how it moves under an upsert is stated by `Ingestion.PutSpend` |
| Ingestion.Count | backend/src/services/ingestionService.ts:91-100 | the number of the tenant's orders owned by the customer; how it moves under an upsert is stated by `Ingestion.PutSpend` |
| Ingestion.PutSpend | backend/src/services/ingestionService.ts:83-94 | upserting one order moves a customer's summed price and order count by the new row's share minus the old row's share |
| Ingestion.UpsertCustomer | backend/src/services/ingestionService.ts:26-47 | an existing customer keeps its totals; a new one starts at 0 and 0; email, first name and last name are each overwritten when given, cleared on `null` and kept when absent |
| Ingestion.UpsertOrder | backend/src/services/ingestionService.ts:52-72 | an upserted order always gets the new price; an existing order keeps its number and owner; a new order is owned by the payload's customer; the currency is overwritten by a value, cleared by `null`, and kept (or left empty on create) when absent |
| Ingestion.HandleOrderCreated | backend/src/services/ingestionService.ts:10-102 | no customer means the state is unchanged and there is no error; an unusable price fails before any write; products and checkouts are untouched; the payload customer's totals equal the sum and count over its orders afterwards |
| Ingestion.FirstVariantPrice | backend/src/services/ingestionService.ts:109 | the first variant's price when `variants` is a non-empty list, else 0; stated about the stored row by `Ingestion.HandleProductUpdate` |
| Ingestion.CompletedAt | backend/src/services/ingestionService.ts:150 | a date from the text when `completed_at` is truthy, else null; stated about the stored row by `Ingestion.HandleCheckoutUpdate` |
| Ingestion.HandleProductUpdate | backend/src/services/ingestionService.ts:107-130 | the product row exists afterwards; its price is the first variant's price, or 0 with no variants; its title is overwritten by a value, cleared by `null`, and kept (or left empty on create) when absent; the other three tables are untouched |
| Ingestion.HandleCheckoutUpdate | backend/src/services/ingestionService.ts:132-161 | the checkout row exists afterwards; `completed_at` is null exactly when the member is absent, null or empty; `total_price`, `currency` and `abandoned_checkout_url` are each overwritten by a value, cleared by `null`, and kept (or left empty on create) when absent; customers, orders and products are untouched |
| IngestionProperties.OrderWrites | backend/src/services/ingestionService.ts:26-102 | an order delivery writes only the order row and the customer row under the payload's keys; the customer row carries the upserted profile and the recomputed totals |
| IngestionProperties.ExistingOrderKeepsIdentity | backend/src/services/ingestionService.ts:59-63 | redelivering an existing order changes only its price and currency; its number and customer stay as created |
| IngestionProperties.TenantIsolation | backend/src/services/ingestionService.ts:10-161 | no handler changes any row of another tenant in any table |
| IngestionProperties.ProductAndCheckoutWrites | backend/src/services/ingestionService.ts:111-117 | product and checkout deliveries change only the row under their own key |
| IngestionProperties.CheckoutIgnoresCustomer | backend/src/services/ingestionService.ts:133-137 | the checkout result does not depend on the payload's customer member |
| IngestionProperties.HandlersKeepUnique | backend/src/services/ingestionService.ts:26-72 | every handler keeps the unique key constraint on all four tables |
| IngestionProperties.OrderIdempotent | backend/src/services/ingestionService.ts:74-102 | handling the same order payload again leaves the state exactly as after the first handling |
| IngestionProperties.RedeliveryIdempotent | backend/src/services/ingestionService.ts:49-51 | delivering one order payload n >= 1 times has the effect of one delivery |
| IngestionProperties.ProductIdempotent | backend/src/services/ingestionService.ts:111-129 | handling the same product payload twice equals handling it once |
| IngestionProperties.CheckoutIdempotent | backend/src/services/ingestionService.ts:139-161 | handling the same checkout payload twice equals handling it once |
| IngestionProperties.TotalsPreserved | backend/src/services/ingestionService.ts:83-102 | if every customer's totals equal its aggregate, they still do after an order whose row is new or already owned by the payload's customer |
| IngestionProperties.SingleCustomerHistory | backend/src/services/ingestionService.ts:74-81 | any sequence of order deliveries for one customer keeps all totals consistent, including duplicates and any order |
| IngestionProperties.StaleTotalsCounterexample | backend/src/services/ingestionService.ts:59-63 | re-attributing an existing order to another customer at a different price leaves the first owner's totals stale: they differ from its aggregate over the order table |
| IngestionProperties.ProfileKeptWhenAbsent | backend/src/services/ingestionService.ts:33-38 | an order whose customer member omits email, first name and last name leaves an existing customer's profile unchanged |
| IngestionProperties.TwoOwnedOrders | backend/src/services/ingestionService.ts:83-100 | for two orders both owned by the customer, the summed price is the sum of their prices and the count is 2 |
| IngestionProperties.FirstDeliveryScenario | backend/src/services/ingestionService.ts:26-102 | order 9001 at 50.00 for c1 into an empty store creates exactly that order row and the customer with totals 50.00 and 1 |
| IngestionProperties.SecondDeliveryOrders | backend/src/services/ingestionService.ts:52-72 | order 9002, a new id, is appended to the order table after order 9001 and owned by c1 |
| IngestionProperties.SecondDeliveryScenario | backend/src/services/ingestionService.ts:26-102 | order 9002 at 25.00 without an email moves c1's totals from 50.00 and 1 to 75.00 and 2 and keeps the email |
| IngestionProperties.TwoOrderScenario | backend/src/services/ingestionService.ts:10-102 | order 9001 at 50.00 for c1 gives totals 50.00 and 1; redelivery changes nothing; order 9002 at 25.00 gives 75.00 and 2 and keeps the email |
| Worker.Dispatch | backend/src/lib/queue.ts:18-26 | each handler is chosen for exactly its two topic strings, and every other topic gets no handler |
| Values.Assign | backend/src/services/ingestionService.ts:33-38 | the Prisma `update` rule for one member: an `undefined` member keeps the column, `null` clears it, a value overwrites it; `Values.AssignIdempotent` states that writing twice equals writing once |
| Values.Initial | backend/src/services/ingestionService.ts:39-46 | the Prisma `create` rule for one member: a value is stored, `undefined` or `null` leaves the nullable column empty; `Values.AssignIdempotent` states it equals an update of an empty column |
| Values.AssignIdempotent | backend/src/services/ingestionService.ts:33-46 | writing the same member twice equals writing it once, and a create equals an update of an empty column |
| Worker.RunJob | backend/src/lib/queue.ts:13-31 | at most one handler runs, on the job's own payload and tenant id; an unknown topic completes with the state unchanged; an order handler error makes the job fail |
| Worker.FailureOnlyFromOrderPrice | backend/src/lib/queue.ts:17-30 | a job fails exactly when it is an order job whose payload has a customer and no usable price |
| Worker.NearMissTopicsIgnored | backend/src/lib/queue.ts:18-26 | topics matched by exact comparison: `orders/update`, `products/updated`, `Orders/create` and `orders/paid` do nothing |
| Worker.JobRedeliveryIdempotent | backend/src/lib/queue.ts:13-31 | running a completed job a second time completes with the same state, for every topic |
| Tenancy.ChooseQuery | backend/src/middleware/tenantMiddleware.ts:7-18 | lookup is by id exactly when the id header is truthy, and by domain exactly when it is not and the domain header is truthy |
| Tenancy.RunQuery | backend/src/middleware/tenantMiddleware.ts:14-17 | the `findUnique` by id or by shop domain: the record under the key, `null` when there is none, a throw when the table is unreachable, and no read without a query |
| Tenancy.TenantMiddleware | backend/src/middleware/tenantMiddleware.ts:4-33 | the result is 500 exactly when a lookup was issued and threw; with no identifying header it is 401; a reachable lookup that finds a record proceeds with exactly that record, and one that finds none gives 401 |
| Tenancy.IdHeaderTakesPrecedence | backend/src/middleware/tenantMiddleware.ts:14-15 | with an id header, the domain header and domain index are ignored, and an unknown id gives 401 |
| Tenancy.DomainUsedOnlyWithoutId | backend/src/middleware/tenantMiddleware.ts:16-17 | without an id header the id index is ignored, and the domain lookup decides between the tenant and 401 |
| Tenancy.ResolvedTenantMatchesHeader | backend/src/middleware/tenantMiddleware.ts:14-28 | when the indexes agree with their records, the attached tenant has the header's id, or the header's shop domain |
| Intake.HeadersPresent | backend/src/controllers/webhookController.ts:9-13 | all three of the signature, topic and shop-domain headers are present and non-empty |
| Intake.HandleWebhook | backend/src/controllers/webhookController.ts:7-55 | the status is 200, 400, 401 or 500; a job exists exactly when the status is 200; missing headers give 400; a mismatch or missing tenant gives 401; an unset secret or raw body gives 500; a valid webhook gives 200 with one job `{topic, body, tenant id}` named by the topic when the queue accepts, and 500 when enqueueing throws |
| Intake.WebhookRoute | backend/src/routes/webhookRoutes.ts:8 | a middleware rejection is the reply with no job; otherwise the controller runs with the resolved tenant attached |
| Intake.Enqueue | backend/src/controllers/webhookController.ts:42-46 | queued jobs keep their place and the accepted job, if any, is added last |
| Intake.MissingHeadersSkipSignature | backend/src/controllers/webhookController.ts:9-15 | with a required header missing, the reply does not depend on the signing function |
| Intake.SignatureIgnoresTenant | backend/src/controllers/webhookController.ts:24-27 | the resolved tenant changes only the tenant id in the job, never the status |
| Intake.DecisionUsesRawBytes | backend/src/controllers/webhookController.ts:24-31 | the status does not depend on the parsed body; raw bytes whose signature differs from the header give 401 |
| Intake.ValidWebhookAccepted | backend/src/controllers/webhookController.ts:24-54 | through the route, a resolved tenant with a matching signature over the raw body gives 200 and its job when the queue accepts, else 500 |
| Intake.TenantCheckedBeforeHeaders | backend/src/routes/webhookRoutes.ts:8 | an unresolvable tenant gives 401 through the route even when the signature headers are missing |
| Intake.RouteRejectionCauses | backend/src/controllers/webhookController.ts:29-37 | through the route, a 401 means the tenant did not resolve or the signature did not match |
| Intake.AcceptedWebhookRunsItsHandler | backend/src/controllers/webhookController.ts:42-50 | an accepted webhook appends one job `{topic, body, tenant id}`; running it applies the handler for its topic to that body and tenant |

## Left out

- Database transactions, row locks and races between concurrent jobs: each handler is one atomic function, so failures inside a transaction, such as a lost connection, are not modelled.
- `updated_at` and `created_at` columns: not modelled, so the idempotence lemmas compare every other column.
- Date parsing: `new Date(completed_at)` is the opaque constructor `DateOf`.
- Payload values Prisma rejects at write time: the schema is not part of this model. A malformed product or checkout price, or a missing required column, is not modelled. For orders, an absent or `null` `total_price` stands for every value `new Prisma.Decimal` rejects.
- Booleans, fractional numbers and objects as ids: `String` of these is not modelled.
- Ids.IdString: numeric ids are exact integers written out digit by digit. JavaScript numbers are doubles, so `String` switches to exponent form from 1e21, and `JSON.parse` rounds integer ids above 2^53 - 1. Two distinct large ids in the payload text can then share one key. Neither effect is modelled, so the numeric-id lemmas hold for the model's exact integers and, in the source, only for safe integers (|n| <= 2^53 - 1).
- Repeated request headers (array values): not modelled.
- BullMQ and Redis plumbing: the connection, retry options, worker event listeners and logging in `backend/src/lib/queue.ts` are not modelled. Enqueue is appending to a sequence, and a failed job is the `Failed` outcome.
- `Ingestion.HandleProductUpdate`: each variant price is modelled as a decimal that is present, so an absent `variants[0].price` is not modelled.
- Startup and wiring in `backend/src/app.ts` and `backend/src/index.ts`, dashboard and login routes, the frontend, and the seed and test scripts: outside the ingestion core.
