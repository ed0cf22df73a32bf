# Webhook ingestion: a Dafny model

This project models the webhook pipeline of a small Rails application.
HTTP endpoints receive third-party notifications and store the raw body as an
`InboundWebhook` record. The Stripe endpoint also queues a background job. The
jobs parse the stored body and write a terminal `status` into the record.

What is modelled:

- **The record table** (`inbound_webhooks.dfy`, module `InboundWebhooks`). Rows
  are `{id, body, status}`. `status` is `None` until a job writes `processed`
  or `skipped`, because the column has no default. The model assumes ids
  1, 2, 3, … in creation order, with no gaps. The class `InboundWebhookTable`
  holds the rows. Its methods are INSERT, `find` and `update!`.
- **The job queue** (`queueing.dfy`). This is the sequence of record ids handed
  to `perform_later`.
- **The controllers** (`controllers.dfy`, module `WebhookControllers`). The
  base, Movies and Stripe controllers are one class, `WebhookController`, tagged
  by `Kind`. Movies overrides nothing, so it dispatches exactly like Base.
  - The class holds the memoised `@payload`, the request body stream and the
    response set by `head`. The model treats the stream as consumed by a read.
  - `Process` runs the `before_action :verify_event` filter. It runs `create`
    only if the filter neither responded nor raised.
  - A Ruby exception that leaves the controller becomes `Raised(error)`.
  - Each method is proved against pure functions (`VerificationGate`,
    `CreateAction`, `HandleDelivery`). The properties of the endpoint are proved
    about those functions and about `DeliverAll`, which runs many requests in a
    row.
- **The jobs** (`jobs.dfy`, module `WebhookJobs`). `StripePerform` and
  `MoviesPerform` are pure specifications. `PerformStripeJob` and
  `PerformMoviesJob` are the methods that update the table in place.
  `RunStripeJobs` runs any sequence of jobs, redeliveries included.
- **End to end** (`pipeline.dfy`). A delivery that is accepted and saved is
  classified by the job queued for it if its body parses; otherwise the job
  raises and writes nothing.

Foreign code is passed in as parameters:
- the Stripe signature check is a function `(payload, signature header,
  secret, tolerance) -> Accepted | SignatureError | OtherError`;
- JSON parsing is a partial function `body -> Option<...>`;
- the database's answer to an INSERT is `Saved | Invalid | DatabaseError`.

Behaviour of the code worth noting:
- no `received` status is ever written, and a new record has no status;
- Stripe's `verify_event` turns only `SignatureVerificationError` into 400,
  and any other error from the signature library propagates;
- the base `create` uses non-raising `create`, so a record refused by validation
  is not stored and the answer is still 200;
- Stripe's `create` enqueues the job *before* it answers 200;
- there is no body-size limit and no `failed` status.

The Movies endpoint always answers 400 and stores nothing, because the base
`verify_event` always calls `head :bad_request`
(`UnverifiedEndpointStoresNothing`). The controller test
`test/controllers/webhooks/movies_controller_test.rb:15` expects `:ok` for a
plain POST. The code as written answers 400, and the model follows the code.

## Model

| member | source | states |
|---|---|---|
| `InboundWebhooks.Created` | app/controllers/webhooks/base_controller.rb:5 | A saved `create(body:)` appends exactly one row. The row has the next id, exactly the given body and no status. Earlier rows are untouched, and unique ids in creation order are preserved. |
| `InboundWebhooks.IndexOf` | app/jobs/webhooks/stripe_job.rb:4 | Finding a record by primary key yields a position holding that key. It finds nothing only when no row has that key. |
| `InboundWebhooks.IndexOfWellFormed` | db/migrate/20230422190352_create_inbound_webhooks.rb:3-8 | With keys assigned 1, 2, … in order, key `id` is found at position `id - 1` exactly when `1 <= id <= |rows|`. |
| `InboundWebhooks.IndexOfSameRecords` | app/jobs/webhooks/stripe_job.rb:10-12 | Finding by key ignores statuses, so a status update never changes which row a later `find` returns. |
| `InboundWebhooks.Lookup` | app/jobs/webhooks/stripe_job.rb:4 | The loaded record is a row of the table with the requested id. There is none exactly when no row has that id. |
| `InboundWebhooks.WithStatus` | app/jobs/webhooks/stripe_job.rb:10 | `update!(status:)` sets that row's status. Every id and body, and every other row, stay the same. |
| `InboundWebhooks.InboundWebhookTable.constructor` | db/migrate/20230422190352_create_inbound_webhooks.rb:3-8 | The table starts empty and well formed. |
| `InboundWebhooks.InboundWebhookTable.Insert` | app/controllers/webhooks/stripe_controller.rb:4 | A successful insert returns the next id. The table becomes `Created(old rows, body)` and stays well formed. |
| `InboundWebhooks.InboundWebhookTable.Find` | app/jobs/webhooks/stripe_job.rb:4 | It returns the row with the requested id, or None when no row has it. |
| `InboundWebhooks.InboundWebhookTable.UpdateStatus` | app/jobs/webhooks/movies_job.rb:9 | Only the status of the row with that key changes. A missing key changes nothing. Ids, bodies and well-formedness are kept. |
| `Queueing.JobQueue.constructor` | app/jobs/webhooks/stripe_job.rb:2 | The `:default` queue starts empty. |
| `Queueing.JobQueue.PerformLater` | app/controllers/webhooks/stripe_controller.rb:7 | `perform_later(record)` adds exactly that record's id at the end of the queue. |
| `WebhookControllers.SecretString` | app/controllers/webhooks/stripe_controller.rb:23 | `secret.to_s` is empty exactly when the secret is missing or empty. A missing secret never raises. |
| `WebhookControllers.VerificationGate` | app/controllers/webhooks/stripe_controller.rb:16-28 | The base and Movies filter always halts with 400. Stripe's filter lets the request through iff the library accepts, halts with 400 iff it raises `SignatureVerificationError`, and propagates any other error. The library call receives the payload, the header and `secret.to_s`. |
| `WebhookControllers.CreateAction` | app/controllers/webhooks/stripe_controller.rb:2-11 | Stripe (`create!`) answers 200 iff the save succeeds; then it appends one record and enqueues exactly its id. A failed save raises and stores or enqueues nothing. The base `create` answers 200 even when validation refuses the record, which is then not stored. A database error raises for both. The store is only appended to, and consistency is kept. |
| `WebhookControllers.HandleDelivery` | app/controllers/webhooks/base_controller.rb:2-7 | The filter chain: Base and Movies answer 400 and change nothing. Nothing is stored unless the answer is 200. At Stripe, 200 means the signature was accepted and the save succeeded; the new record's body is exactly the request body and the queue grows by its id. 400 happens iff the signature error occurs, and any other library error propagates. A failed save after an accepted signature raises (`RecordInvalid` for an invalid record, `StatementInvalid` for a database error). An exception leaves the store unchanged. |
| `WebhookControllers.DeliverAll` | app/controllers/webhooks/base_controller.rb:2-7 | Any sequence of requests only appends to the table and the queue. Every queued id keeps naming a stored record. |
| `WebhookControllers.UnverifiedEndpointStoresNothing` | app/controllers/webhooks/base_controller.rb:11-13 | For the base and Movies endpoints, every request in any sequence is answered 400 and the store is unchanged. |
| `WebhookControllers.StripeRecordsMatchAcknowledgements` | app/controllers/webhooks/stripe_controller.rb:4-10 | At the Stripe endpoint, both the new records and the new jobs number exactly the 200 answers. |
| `WebhookControllers.MoviesBehavesAsBase` | app/controllers/webhooks/movies_controller.rb:1-14 | The Movies controller serves every request exactly as the base controller does. |
| `WebhookControllers.WebhookController.constructor` | app/controllers/webhooks/base_controller.rb:1 | A fresh controller for one request: nothing read, no payload memo, no response. |
| `WebhookControllers.WebhookController.ReadBody` | app/controllers/webhooks/base_controller.rb:16 | `request.body.read` returns the unread rest of the modelled stream and consumes it. |
| `WebhookControllers.WebhookController.Payload` | app/controllers/webhooks/base_controller.rb:15-17 | Every call returns the whole request body. The stream is read exactly once over all calls. |
| `WebhookControllers.WebhookController.Head` | app/controllers/webhooks/base_controller.rb:12 | `head` sets the response code. |
| `WebhookControllers.WebhookController.VerifyEvent` | app/controllers/webhooks/stripe_controller.rb:16-28 | It agrees with `VerificationGate` on the raw body. It sets 400 only on a halt and reports a propagated error. The base filter never reads the body. |
| `WebhookControllers.WebhookController.Create` | app/controllers/webhooks/stripe_controller.rb:2-11 | It agrees with `CreateAction` on the raw body for the new table, queue and response, or it reports the raised error with no response. |
| `WebhookControllers.WebhookController.Process` | app/controllers/webhooks/base_controller.rb:2-7 | A whole request agrees with `HandleDelivery`. Verification and storage see the same bytes. The body stream is read at most once, and never by the base and Movies endpoints. |
| `WebhookJobs.StripeStatus` | app/jobs/webhooks/stripe_job.rb:7-13 | Status is `processed` iff the event type is `customer.updated`. Every other type, or a null type, gives `skipped`. |
| `WebhookJobs.StripePerform` | app/jobs/webhooks/stripe_job.rb:4-14 | A missing record or a body that does not parse raises and changes nothing. Otherwise exactly one status update happens: the record's status becomes `StripeStatus` of its event type. |
| `WebhookJobs.MoviesPerform` | app/jobs/webhooks/movies_job.rb:4-10 | A body that does not parse raises before the update. Otherwise the record's status becomes `processed` whatever the parsed payload, and only that field changes. |
| `WebhookJobs.StripePerformSetsOnlyStatus` | app/jobs/webhooks/stripe_job.rb:10-12 | After a successful Stripe job the record's status follows its event type. All ids and bodies are unchanged, and every other record is untouched. |
| `WebhookJobs.StripePerformIdempotent` | app/jobs/webhooks/stripe_job.rb:7-13 | Running the Stripe job a second time on the same record gives the same table. |
| `WebhookJobs.MoviesPerformIdempotent` | app/jobs/webhooks/movies_job.rb:9 | Running the Movies job a second time leaves the record `processed` and the table unchanged. |
| `WebhookJobs.RunStripeJobs` | app/jobs/webhooks/stripe_job.rb:4-14 | Any sequence of Stripe jobs keeps every record's id and body, and the number of records. |
| `WebhookJobs.StripeJobsKeepStatusesFollowingBodies` | app/jobs/webhooks/stripe_job.rb:5-13 | If every set status already agrees with its body, as ingestion and the Stripe jobs keep it, this still holds after any sequence of Stripe jobs. |
| `WebhookJobs.StripeJobsSettleStatuses` | app/jobs/webhooks/stripe_job.rb:7-13 | For statuses that agree with their bodies, as ingestion and the Stripe jobs keep them, a record that is `processed` or `skipped` keeps that status through any later Stripe jobs. |
| `WebhookJobs.StripeJobsNeverUnsetStatus` | app/jobs/webhooks/stripe_job.rb:10-12 | With no assumption on the table, a record that has a status still has one after any sequence of Stripe jobs: no job moves it back to unset. |
| `WebhookJobs.StripeJobsClassifyEveryParsedRecord` | app/jobs/webhooks/stripe_job.rb:4-14 | A job for an existing record with a parseable body leaves that record classified, whatever jobs run before or after it. |
| `WebhookJobs.ClassifiedStays` | app/jobs/webhooks/stripe_job.rb:7-13 | A record whose status already matches its own body's event type keeps that status through any sequence of Stripe jobs. |
| `WebhookJobs.PerformStripeJob` | app/jobs/webhooks/stripe_job.rb:4-14 | The in-place job agrees with `StripePerform`. On an exception the table is unchanged. |
| `WebhookJobs.PerformMoviesJob` | app/jobs/webhooks/movies_job.rb:4-10 | The in-place job agrees with `MoviesPerform`. On an exception the table is unchanged. |
| `WebhookPipeline.AcceptedStripeDeliveryIsClassified` | app/controllers/webhooks/stripe_controller.rb:4-10 | An accepted, saved Stripe delivery is answered 200 and its record, with exactly the received bytes, is enqueued. The job for it classifies those bytes, or raises if they do not parse. |
| `WebhookPipeline.IngestionKeepsStatusesFollowingBodies` | app/controllers/webhooks/stripe_controller.rb:4 | Ingestion writes no status, so it keeps every status consistent with its body. |
| `WebhookPipeline.EveryQueuedRecordIsClassified` | app/jobs/webhooks/stripe_job.rb:4-14 | After any run of Stripe deliveries and then the jobs for the whole queue, every queued record whose body parses carries the status its event type calls for. |

## Left out

- The Stripe signature algorithm (HMAC, timestamp tolerance, header format). It belongs to the `stripe` gem, so it is an uninterpreted function. The secret and `Stripe::Webhook::DEFAULT_TOLERANCE` are plain parameters.
- `JSON.parse` and `Stripe::Event.construct_from`. These are foreign code, modelled as a partial function from the body to an event with an optional `type`. It returns None when the body is not JSON or has no `type` key, since reading `event.type` then raises. The Movies job's parser may return any type, because its result is unused.
- `app/models/inbound_webhook.rb` is not part of this model. Its validations and the database's failures are folded into the `SaveOutcome` parameter.
- `update!` is assumed to succeed. No validation on `status` is visible, and a failure of that write is not modelled.
- `perform_later` is assumed to succeed. Enqueue failures, queue delivery, retries and dead-lettering belong to ActiveJob and are not modelled.
- How Rails turns an escaped exception into an HTTP response is not modelled. Such a request ends in `Raised`, with no response set by the controller.
- Routing (`config/routes.rb`), rendering internals, the credentials store and the `created_at`/`updated_at` timestamps are framework code and I/O.
- Primary keys are modelled as 1, 2, 3, … with no gaps. A database whose key sequence skips a value after a failed INSERT is not modelled.
- The request body stream is modelled as consumed by a read, so a second read would return nothing. Rails can hand back a fresh buffer of the whole body instead; the memoised `payload` never reads twice, so no contract depends on this.
- `Head`, `VerifyEvent` and `Create` require that no response has been set yet. A second render raises `DoubleRenderError` in Rails; `Process` never reaches that state, and that error is not modelled.
- Concurrent requests and concurrent jobs are not modelled. Requests and jobs run one at a time, in a given order.
- Loading a job's argument by id is modelled as `find` that can miss (`RecordNotFound`). In ActiveJob this surfaces as a deserialization error before `perform` runs.
- `MoviesJob` is modelled on its own. No controller in this code enqueues it.
